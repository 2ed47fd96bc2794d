/**
 The rounds of one Binding: arbitration, material, gates, observation, account fence, and then either
 the discovery that nothing is to be done, or one write; and, on deletion, the unbinding.
 */
module BindingRound {
  import opened Wrappers
  import opened Naming
  import opened Pki
  import opened Protocols
  import opened Providers
  import opened Arbitration
  import opened Sans
  import opened CleanupPolicy

  /** What a Binding reads of its certificate. */
  datatype CertView = CertView(issued: bool, upload: bool, region: string, current: Option<CurrentGeneration>)

  datatype CurrentGeneration = CurrentGeneration(fingerprint: string, certId: Option<nat>, casName: string)

  datatype Status = Status(
    appliedFingerprint: string, appliedCertRef: string, boundAccount: string,
    applied: bool, conflict: bool, ready: bool,
    drifted: string, observedGeneration: int, lastApplied: Option<int>, cleanupStartedAt: Option<int>)

  const NEW_STATUS := Status("", "", "", false, false, false, "", 0, None, None)

  /** One write to the target: in which state of knowledge it was sent, and to whose target. */
  datatype Write = Write(unbind: bool, bound: string, recorded: string, observed: Observed, account: string)

  datatype Input = Input(
    crName: string, generation: int, self: Candidate, peers: seq<Candidate>,
    certificate: Option<CertView>, secret: Option<Bundle>, ensureHTTPS: bool, credentials: bool, now: int)

  datatype End = Stopped | NotReady | Conflicting | Gated | ObserveFailed | Fenced | Unchanged | ApplyFailed | Wrote

  /** Parsed material is sound and has a fingerprint, a certificate has a region, and uids are unique. */
  ghost predicate Plausible(input: Input) {
    && (input.secret.Some? ==> Sound(input.secret.value) && input.secret.value.fingerprint != "")
    && (input.certificate.Some? ==> input.certificate.value.region != "")
    && forall c :: c in input.peers && c.uid == input.self.uid ==> c.created == input.self.created
  }

  /** Content comes from the Secret; the certificate's status only adds id and name, and only if it speaks
      of the same material. */
  function LoadMaterial(crName: string, c: CertView, b: Bundle, names: seq<string>): Material {
    var m := Material(b.fingerprint, Encoded(Chain(b)), CASName(crName, b.fingerprint), None, c.region, names);
    if c.current.Some? && c.current.value.fingerprint == b.fingerprint
    then m.(certId := c.current.value.certId,
            casName := if c.current.value.casName != "" then c.current.value.casName else m.casName)
    else m
  }

  /** What a round wants on the target, once it has material. */
  function Want(kind: Kind, input: Input): Option<(string, bool)> {
    if input.certificate.None? || input.secret.None? then None
    else Some((Wanted(kind, LoadMaterial(input.crName, input.certificate.value, input.secret.value, [])),
               kind.FC3? && input.ensureHTTPS))
  }

  lemma NamesDoNotMatter(kind: Kind, crName: string, c: CertView, b: Bundle, names: seq<string>)
    ensures var m, n := LoadMaterial(crName, c, b, names), LoadMaterial(crName, c, b, []);
            && Wanted(kind, m) == Wanted(kind, n)
            && (CertificateGate(c, m) <==> CertificateGate(c, n)) && (CasUploadGate(kind, c, m) <==> CasUploadGate(kind, c, n))
  {
  }

  /** The certificate controller has accepted this very material. */
  predicate CertificateGate(c: CertView, m: Material) {
    c.current.Some? && c.current.value.fingerprint == m.fingerprint
  }

  /** A target that refers to CAS needs something to refer to. */
  predicate CasUploadGate(kind: Kind, c: CertView, m: Material) {
    kind.OSS? ==> c.upload && m.certId.Some?
  }

  /** No other Binding comes before this one, as far as it can see. */
  ghost predicate Elected(peers: seq<Candidate>, self: Candidate) {
    forall c :: Live(peers, c) && c.uid != self.uid ==> Stands(peers, self.uid) && Less(self, c)
  }

  ghost predicate Stands(peers: seq<Candidate>, uid: string) {
    exists w :: Live(peers, w) && w.uid == uid
  }

  /** What it takes to get as far as the target. */
  ghost predicate Admitted(kind: Kind, domain: string, input: Input) {
    && input.certificate.Some? && input.certificate.value.issued && input.secret.Some?
    && Elected(input.peers, input.self) && IsFor(input.secret.value.leaf, domain)
    && input.certificate.value.current.Some?
    && input.certificate.value.current.value.fingerprint == input.secret.value.fingerprint
    && (kind.OSS? ==> input.certificate.value.upload && input.certificate.value.current.value.certId.Some?)
  }

  /** These are the two gates. */
  lemma GatesAre(kind: Kind, crName: string, c: CertView, b: Bundle)
    ensures var m := LoadMaterial(crName, c, b, []);
            CertificateGate(c, m) && CasUploadGate(kind, c, m) <==>
              c.current.Some? && c.current.value.fingerprint == b.fingerprint &&
              (kind.OSS? ==> c.upload && c.current.value.certId.Some?)
  {
  }

  /** One of its names covers the host. */
  ghost predicate IsFor(c: Certificate, host: string) {
    exists n :: HasName(c, n) && Covers(n, host)
  }

  lemma IsForIff(c: Certificate, names: seq<string>, host: string)
    requires forall n :: n in names <==> HasName(c, n)
    ensures IsFor(c, host) <==> CoveredBy(names, host)
  {
    hide Covers, HasName;
    if IsFor(c, host) {
      var n :| HasName(c, n) && Covers(n, host);
      var i :| 0 <= i < |names| && names[i] == n;
    }
    if CoveredBy(names, host) {
      var i :| 0 <= i < |names| && Covers(names[i], host);
      assert names[i] in names;
    }
  }

  /** How an undisturbed round ends that gets as far as the target. */
  function Verdict(kind: Kind, bound: string, account: string, site: Option<Site>, want: string, ensureHTTPS: bool): End {
    if bound != "" && bound != account then Fenced
    else if Owes(kind, site, want, ensureHTTPS) then Wrote
    else Unchanged
  }

  lemma ElectedIff(peers: seq<Candidate>, self: Candidate, winner: Option<Candidate>)
    requires forall c :: c in peers && c.uid == self.uid ==> c.created == self.created
    requires winner.None? ==> forall c :: c in peers ==> c.deleting
    requires winner.Some? ==> IsWinner(peers, winner.value)
    ensures Elected(peers, self) <==> winner.None? || winner.value.uid == self.uid
  {
    if winner.Some? {
      var w := winner.value;
      LessIsStrictTotal(w, self);
      if w.uid == self.uid {
        forall c | Live(peers, c) && c.uid != self.uid ensures Stands(peers, self.uid) && Less(self, c) {
          LessIsStrictTotal(w, c);
        }
      } else {
        assert Live(peers, w);
        forall v | Live(peers, v) && v.uid == self.uid ensures !Less(self, w) { assert !Less(v, w); }
      }
    }
  }

  /** What is loaded is recognised again once it is on the target, and the cloud's demand for a name is met. */
  lemma LoadedMaterial(crName: string, c: CertView, b: Bundle, names: seq<string>)
    requires Sound(b)
    ensures var m := LoadMaterial(crName, c, b, names);
            && m.fingerprint == b.fingerprint && FingerprintOf(m.pem) == m.fingerprint && m.names == names && m.casName != ""
            && m.region == c.region
            && (if c.current.Some? && c.current.value.fingerprint == b.fingerprint
                then m.certId == c.current.value.certId && (c.current.value.casName != "" ==> m.casName == c.current.value.casName)
                else m.certId.None? && m.casName == CASName(crName, b.fingerprint))
  {
    var _ := CASNameShape(crName, b.fingerprint);
    WrittenIsRecognised(b);
  }

  /** Past the gates, the identity that is compared is never empty. */
  lemma WantedNotEmpty(kind: Kind, crName: string, c: CertView, b: Bundle, names: seq<string>)
    requires b.fingerprint != "" && c.region != ""
    requires CasUploadGate(kind, c, LoadMaterial(crName, c, b, names))
    ensures Wanted(kind, LoadMaterial(crName, c, b, names)) != ""
  {
    var m := LoadMaterial(crName, c, b, names);
    CertRefInjective(m.certId, m.region, None, "");
  }

  lemma SameRank(a: Candidate, b: Candidate)
    requires a.uid == b.uid && a.created == b.created
    ensures forall c :: Less(c, a) <==> Less(c, b)
  {
  }

  /** The target is there and is not as wanted. */
  predicate Owes(kind: Kind, site: Option<Site>, want: string, ensureHTTPS: bool) {
    site.Some? &&
    (Current(kind, View(kind, site.value, "")) != want || !Satisfied(View(kind, site.value, "").protocol, ensureHTTPS))
  }

  predicate StatusOk(kind: Kind, s: Status) {
    && (s.ready ==> s.applied && !s.conflict)
    && (s.applied ==> s.appliedFingerprint != "")
    && (kind.OSS? && s.appliedFingerprint != "" ==> s.appliedCertRef != "")
  }

  function Recorded(kind: Kind, s: Status): string {
    if kind.FC3? then s.appliedFingerprint else s.appliedCertRef
  }

  /** Every write went to the account the Binding is bound to, as far as it was bound; and nothing was
      unbound but what this Binding had recorded as its own. */
  predicate Rightful(kind: Kind, w: Write) {
    && (w.bound != "" ==> w.observed.account == w.bound == w.account)
    && (w.unbind ==> Current(kind, w.observed) == w.recorded != "")
  }

  /** A write sent while the Binding was bound to this account, or to none yet. */
  predicate SentUnder(w: Write, bound: string, account: string) {
    w.bound == bound && w.account == account && (bound != "" ==> w.observed.account == bound == account)
  }

  /** The target shows this identity. */
  predicate Shows(kind: Kind, site: Option<Site>, identity: string) {
    site.Some? && identity != "" && Current(kind, View(kind, site.value, "")) == identity
  }

  function Aggregated(s: Status): Status {
    s.(ready := s.applied && !s.conflict)
  }

  /** The conclusion that the certificate stands on the target. */
  function Frozen(kind: Kind, s: Status, m: Material, account: string, wrote: bool, now: int): Status {
    s.(appliedFingerprint := m.fingerprint,
       appliedCertRef := if kind.OSS? then CertRef(m.certId, m.region) else s.appliedCertRef,
       drifted := "", applied := true,
       lastApplied := if wrote then Some(now) else s.lastApplied,
       boundAccount := if s.boundAccount == "" then account else s.boundAccount)
  }

  predicate Spared(faults: seq<Fault>) {
    forall i :: 0 <= i < |faults| ==> faults[i].Healthy?
  }

  class Binding {
    const kind: Kind
    const domain: string
    const cloud: Cloud
    var status: Status
    var finalizer: bool
    var faults: seq<Fault>
    ghost var changes: nat
    ghost var born: State
    ghost var want: Option<(string, bool)>
    var deleting: bool
    ghost var writes: seq<Write>

    /** One write may still come: to a Binding in service before anything was wanted, and as long as the
        target is not as wanted; to one being deleted as long as the target shows what it has recorded. */
    ghost function Debt(): nat
      reads `status, `deleting, `want, cloud
    {
      var site := Here(cloud.state);
      if deleting then if Shows(kind, site, Recorded(kind, status)) then 1 else 0
      else if want.None? || Owes(kind, site, want.value.0, want.value.1) then 1 else 0
    }

    /** Committed writes, of which the cloud keeps the count, are bounded by changes of the wanted material
        and external changes since the Binding was born. */
    ghost predicate Bounded()
      reads `status, `deleting, `want, `changes, `born, cloud
    {
      && born.external <= cloud.state.external && born.writes <= cloud.state.writes
      && (cloud.state.writes - born.writes) + Debt() <=
           1 + (if deleting then 1 else 0) + changes + (cloud.state.external - born.external)
    }

    /** Every write is rightful, and was sent under the account of today or before there was one. */
    ghost predicate Valid()
      reads this, cloud
    {
      && StatusOk(kind, status) && Bounded()
      && forall i :: 0 <= i < |writes| ==> Rightful(kind, writes[i]) && writes[i].bound in {"", status.boundAccount}
    }

    /** What every step keeps. Nothing is written unlogged; the bound account stays; and once there is one,
        every write goes to that account and was decided on an observation of it. */
    twostate predicate Lawful()
      reads this, cloud
    {
      && Passed(cloud) && (old(Spared(faults)) ==> Spared(faults))
      && old(writes) <= writes && |writes| <= |old(writes)| + 1
      && cloud.state.writes - old(cloud.state.writes) <= |writes| - |old(writes)|
      && (old(status.boundAccount) != "" ==> status.boundAccount == old(status.boundAccount))
      && (status.boundAccount != old(status.boundAccount) ==> status.boundAccount == cloud.state.account)
      && forall i :: |old(writes)| <= i < |writes| ==> SentUnder(writes[i], old(status.boundAccount), cloud.state.account)
    }

    /** Either nothing was loaded, or w was; and that counts exactly if something else was wanted before. */
    twostate predicate Loaded(w: Option<(string, bool)>)
      reads this
    {
      && (want == old(want) || (w.Some? && want == w))
      && changes == old(changes) + if old(want).Some? && want != old(want) then 1 else 0
    }

    /** Once bound, the account stays, and every write since went to it, on an observation of it. */
    twostate predicate StaysBound()
      reads this
    {
      old(status.boundAccount) != "" ==>
        && status.boundAccount == old(status.boundAccount)
        && forall i :: |old(writes)| <= i < |writes| ==> writes[i].account == writes[i].observed.account == old(status.boundAccount)
    }

    constructor (kind: Kind, domain: string, cloud: Cloud, faults: seq<Fault>)
      ensures Valid() && !deleting && this.kind == kind && this.domain == domain && this.cloud == cloud
      ensures status == NEW_STATUS && writes == [] && changes == 0 && finalizer && born == cloud.state && want.None?
    {
      this.kind, this.domain, this.cloud, this.faults := kind, domain, cloud, faults;
      status, finalizer := NEW_STATUS, true;
      changes, born, want, deleting, writes := 0, cloud.state, None, false, [];
    }

    /** A status patch against a direct read: it lands whole or not at all. */
    method Patch(b: Status) returns (ok: bool)
      requires Valid() && StatusOk(kind, b)
      requires deleting ==> Recorded(kind, b) == Recorded(kind, status)
      requires status.boundAccount != "" ==> b.boundAccount == status.boundAccount
      modifies this`status, this`faults
      ensures Valid() && (status == old(status) || status == b) && (ok ==> status == b)
      ensures old(Spared(faults)) ==> ok && Spared(faults)
      ensures var fault := old(if faults == [] then Healthy else faults[0]);
              && faults == old(if faults == [] then [] else faults[1..])
              && status == (if fault.FailFirst? then old(status) else b) && (ok <==> fault.Healthy?)
    {
      var fault := if faults == [] then Healthy else faults[0];
      faults := if faults == [] then [] else faults[1..];
      if fault.FailFirst? { return false; }
      status := b;
      ok := fault.Healthy?;
    }

    /** What this round wants on the target; a change of it is a change of the wanted material. */
    ghost method Load(w: string, ensureHTTPS: bool)
      requires Valid() && !deleting
      modifies this`want, this`changes
      ensures Valid() && want == Some((w, ensureHTTPS))
      ensures changes == old(changes) + if old(want).Some? && old(want) != Some((w, ensureHTTPS)) then 1 else 0
    {
      if want.Some? && want != Some((w, ensureHTTPS)) { changes := changes + 1; }
      want := Some((w, ensureHTTPS));
    }

    method ObserveTarget() returns (obs: Observed, err: Option<Code>)
      requires Valid()
      modifies cloud
      ensures Valid() && OnlyCounted(cloud)
      ensures err == Some(TargetNotFound) ==> Here(cloud.state).None?
      ensures err.None? ==>
                Here(cloud.state).Some? && obs.account in {"", cloud.state.account} &&
                obs == View(kind, Here(cloud.state).value, obs.account)
      ensures old(Surviving(cloud.turns)) ==> err != Some(Crash)
      ensures old(Smooth(cloud.turns)) ==>
                && cloud.state == old(cloud.state) && err == (if Here(cloud.state).None? then Some(TargetNotFound) else None)
                && (err.None? ==> obs.account == cloud.state.account)
    {
      hide Owes, Shows, StatusOk, Rightful;
      ghost var before := cloud.state;
      obs, err := Observe(kind, cloud);
      assert cloud.state.external == before.external ==> Here(cloud.state) == Here(before);
    }

    /** The one write of a round that has seen the target not to be as wanted. */
    method ApplyMaterial(m: Material, ensureHTTPS: bool, obs: Observed) returns (err: Option<Code>)
      requires Valid() && !deleting && want == Some((Wanted(kind, m), ensureHTTPS))
      requires Owes(kind, Here(cloud.state), Wanted(kind, m), ensureHTTPS)
      requires FingerprintOf(m.pem) == m.fingerprint && (kind.OSS? ==> !ensureHTTPS)
      requires status.boundAccount != "" ==> obs.account == status.boundAccount == cloud.state.account
      modifies this`writes, cloud
      ensures Valid() && Lawful()
      ensures writes == old(writes) + [Write(false, status.boundAccount, "", obs, cloud.state.account)]
      ensures err.None? ==> Here(cloud.state).Some? && !Owes(kind, Here(cloud.state), Wanted(kind, m), ensureHTTPS)
      ensures old(Smooth(cloud.turns) && Takes(kind, Here(cloud.state))) && m.casName != "" && Wanted(kind, m) != "" ==> err.None?
      ensures old(Surviving(cloud.turns)) ==> err != Some(Crash)
    {
      hide Bounded, Smooth, Takes, Surviving, Owes, FingerprintOf, IsRest, MovesIn, StatusOk;
      err := Put(m, ensureHTTPS);
      writes := writes + [Write(false, status.boundAccount, "", obs, cloud.state.account)];
    }

    /** The write itself: it is paid for by what was owed. */
    method Put(m: Material, ensureHTTPS: bool) returns (err: Option<Code>)
      requires Bounded() && !deleting && want == Some((Wanted(kind, m), ensureHTTPS))
      requires Owes(kind, Here(cloud.state), Wanted(kind, m), ensureHTTPS)
      requires FingerprintOf(m.pem) == m.fingerprint && (kind.OSS? ==> !ensureHTTPS)
      modifies cloud
      ensures Bounded() && Passed(cloud) && cloud.state.writes <= old(cloud.state.writes) + 1
      ensures err.None? ==> Here(cloud.state).Some? && !Owes(kind, Here(cloud.state), Wanted(kind, m), ensureHTTPS)
      ensures old(Smooth(cloud.turns) && Takes(kind, Here(cloud.state))) && m.casName != "" && Wanted(kind, m) != "" ==> err.None?
      ensures old(Surviving(cloud.turns)) ==> err != Some(Crash)
    {
      hide HasHTTPS, Satisfied, CertRef, Smooth, Takes, Surviving, FingerprintOf, IsRest, MovesIn;
      ghost var committed;
      err, committed := Apply(kind, cloud, m, ensureHTTPS);
      if committed { WrittenIsWanted(m, ensureHTTPS); }
    }

    lemma WrittenIsWanted(m: Material, ensureHTTPS: bool)
      requires Here(cloud.state).Some? && FingerprintOf(m.pem) == m.fingerprint && (kind.OSS? ==> !ensureHTTPS)
      requires var s := Here(cloud.state).value;
               if kind.FC3? then s.pem == m.pem && (ensureHTTPS ==> HasHTTPS(s.protocol))
               else s.certRef == CertRef(m.certId, m.region)
      ensures !Owes(kind, Here(cloud.state), Wanted(kind, m), ensureHTTPS)
    {
      if kind.FC3? { LayersAgree(Here(cloud.state).value.protocol); }
    }

    /** Drift is remembered until it is resolved; a missing certificate, the one applied before and the
        one wanted are no drift. */
    function Drifted(b: Status, m: Material, obs: Observed): string {
      var current := Current(kind, obs);
      if current == "" || current == Recorded(kind, b) || current == Wanted(kind, m) then "" else current
    }

    /** Whether this Binding may go on, by what it sees of the others. */
    method Arbitrate(peers: seq<Candidate>, self: Candidate) returns (elected: bool)
      requires forall c :: c in peers && c.uid == self.uid ==> c.created == self.created
      ensures elected <==> Elected(peers, self)
      ensures elected ==> forall c :: Live(peers, c) ==> !Less(c, self)
      ensures elected ==> forall c :: c in peers && !c.deleting && c.uid != self.uid ==>
                || self.created < c.created
                || (self.created == c.created &&
                    exists k :: 0 <= k <= |self.uid| && k < |c.uid| && self.uid[..k] == c.uid[..k] &&
                                (k == |self.uid| || self.uid[k] < c.uid[k]))
      ensures !elected ==> exists c :: Live(peers, c) && c.uid != self.uid && (Live(peers, self) ==> Less(c, self))
    {
      hide Less, Elected;
      var winner := PickWinner(peers);
      ElectedIff(peers, self, winner);
      if winner.None? { return true; }
      elected := winner.value.uid == self.uid;
      if elected {
        SameRank(winner.value, self);
        assert winner.value.created == self.created;
      } else {
        LessIsStrictTotal(winner.value, self);
      }
    }

    /** Steps 1 to 3c: whether this round gets as far as the target, and with what. */
    method Prepare(input: Input, b: Status) returns (end: Option<End>, next: Status, m: Material)
      requires StatusOk(kind, b) && Plausible(input)
      ensures StatusOk(kind, next) && next.appliedFingerprint == b.appliedFingerprint && next.boundAccount == b.boundAccount
      ensures next.observedGeneration == input.generation
      ensures next.applied ==> b.applied
      ensures end.None? ==> next.applied == b.applied
      ensures end.None? ==>
                && input.certificate.Some? && input.certificate.value.issued && input.secret.Some?
                && m.fingerprint == input.secret.value.fingerprint && CertificateGate(input.certificate.value, m)
                && FingerprintOf(m.pem) == m.fingerprint && Wanted(kind, m) != "" && m.fingerprint != ""
                && CoveredBy(m.names, domain) && !next.conflict
                && Want(kind, input) == Some((Wanted(kind, m), kind.FC3? && input.ensureHTTPS))
      ensures end.None? ==> forall c :: Live(input.peers, c) ==> !Less(c, input.self)
      ensures end.None? ==> forall c :: c in input.peers && !c.deleting && c.uid != input.self.uid ==>
                var s := input.self;
                || s.created < c.created
                || (s.created == c.created &&
                    exists k :: 0 <= k <= |s.uid| && k < |c.uid| && s.uid[..k] == c.uid[..k] &&
                                (k == |s.uid| || s.uid[k] < c.uid[k]))
      ensures (end.None? <==> Admitted(kind, domain, input)) && (end.None? ==> m.casName != "")
      ensures end.Some? ==> !next.ready && end.value in {NotReady, Conflicting, Gated}
      ensures end == Some(NotReady) ==> next.applied == b.applied
      ensures end == Some(NotReady) ==>
                (input.certificate.None? || !input.certificate.value.issued || input.secret.None? || !CoveredBy(m.names, domain))
      ensures end == Some(Conflicting) ==> next.applied == b.applied && next.conflict
      ensures end == Some(Conflicting) ==>
                exists c :: Live(input.peers, c) && c.uid != input.self.uid &&
                            (Live(input.peers, input.self) ==> Less(c, input.self))
      ensures end == Some(Gated) ==> !next.applied && !next.conflict && input.certificate.Some?
      ensures end == Some(Gated) ==>
                !(CertificateGate(input.certificate.value, m) && CasUploadGate(kind, input.certificate.value, m))
    {
      hide LoadMaterial, Covers, CoveredBy, IsFor, HasName, Sorted, DistinctKeys, Less, Elected, Live, Wanted;
      hide FingerprintOf;
      hide CASName, Sound, Matches;
      m := Material("", [], "", None, "", []);
      next := b.(observedGeneration := input.generation);
      if input.certificate.None? || !input.certificate.value.issued {
        next := next.(ready := false);
        return Some(NotReady), next, m;
      }
      var elected := Arbitrate(input.peers, input.self);
      if !elected {
        next := Aggregated(next.(conflict := true));
        return Some(Conflicting), next, m;
      }
      next := next.(conflict := false);
      if input.secret.None? {
        next := next.(ready := false);
        return Some(NotReady), next, m;
      }
      var c, bundle := input.certificate.value, input.secret.value;
      var names := DNSNames(bundle.leaf);
      IsForIff(bundle.leaf, names, domain);
      m := LoadMaterial(input.crName, c, bundle, names);
      LoadedMaterial(input.crName, c, bundle, names);
      NamesDoNotMatter(kind, input.crName, c, bundle, names);
      GatesAre(kind, input.crName, c, bundle);
      var missing := Missing(names, [domain]);
      if missing != [] {
        next := next.(ready := false);
        return Some(NotReady), next, m;
      }
      assert domain in [domain];
      if !CertificateGate(c, m) || !CasUploadGate(kind, c, m) {
        next := Aggregated(next.(applied := false));
        return Some(Gated), next, m;
      }
      WantedNotEmpty(kind, input.crName, c, bundle, names);
      return None, next, m;
    }

    /** From the credentials to the end: steps 4 to 8. */
    method Execute(input: Input, prepared: Status, m: Material) returns (end: End)
      requires Valid() && !deleting && StatusOk(kind, prepared) && !prepared.conflict
      requires prepared.appliedFingerprint == status.appliedFingerprint && prepared.boundAccount == status.boundAccount
      requires FingerprintOf(m.pem) == m.fingerprint && m.fingerprint != "" && Wanted(kind, m) != "" && m.casName != ""
      modifies this`status, this`faults, this`changes, this`want, this`writes, cloud
      ensures Valid() && Lawful() && Loaded(Some((Wanted(kind, m), kind.FC3? && input.ensureHTTPS)))
      ensures status.appliedFingerprint != old(status.appliedFingerprint) ==> status.appliedFingerprint == m.fingerprint
      ensures status == old(status) || status.observedGeneration == prepared.observedGeneration
      ensures end.Unchanged? || end.Wrote? ==> InPlace(m, kind.FC3? && input.ensureHTTPS)
      ensures end.Fenced? ==> status.conflict && !status.ready && status.applied == prepared.applied && writes == old(writes)
      ensures end.ObserveFailed? || end.NotReady? ==>
                status.applied == prepared.applied || (!status.applied && Here(cloud.state).None?)
      ensures end.ApplyFailed? ==> !status.applied && !status.ready && status.appliedFingerprint == old(status.appliedFingerprint)
      ensures end.Unchanged? ==> writes == old(writes) && (old(Smooth(cloud.turns)) ==> cloud.state == old(cloud.state))
      ensures end in {Stopped, NotReady, ObserveFailed, Fenced, Unchanged, ApplyFailed, Wrote}
      ensures end.NotReady? ==> !status.ready && status.applied == prepared.applied && cloud.state == old(cloud.state)
      ensures old(Undisturbed(Wanted(kind, m), kind.FC3? && input.ensureHTTPS)) && input.credentials ==>
                end == old(Verdict(kind, status.boundAccount, cloud.state.account, Here(cloud.state),
                                   Wanted(kind, m), kind.FC3? && input.ensureHTTPS))
      ensures old(Spared(faults) && Surviving(cloud.turns)) ==> !end.Stopped?
      ensures !input.credentials && old(Spared(faults)) ==> end.NotReady? && status.observedGeneration == prepared.observedGeneration
    {
      hide Satisfied, CertRef, Sound, FingerprintOf, Owes, Rightful, View, LoadMaterial, IsRest, MovesIn, SentUnder;
      hide Spared;
      hide Smooth, Takes, Verdict, InPlace, StatusOk;
      RestOfAll(cloud.turns);
      if !input.credentials {
        ReadyOnly(prepared);
        var ok := Patch(prepared.(ready := false));
        return if ok then NotReady else Stopped;
      }
      Load(Wanted(kind, m), kind.FC3? && input.ensureHTTPS);
      end := Compare(prepared, m, kind.FC3? && input.ensureHTTPS, input.now);
    }

    lemma ReadyOnly(b: Status)
      requires StatusOk(kind, b)
      ensures StatusOk(kind, b.(ready := false))
    {
    }

    /** What was wanted is on the target and on record. */
    ghost predicate InPlace(m: Material, ensureHTTPS: bool)
      reads this, cloud
    {
      && status.ready && status.applied && status.appliedFingerprint == m.fingerprint
      && Here(cloud.state).Some? && !Owes(kind, Here(cloud.state), Wanted(kind, m), ensureHTTPS)
      && Recorded(kind, status) == Wanted(kind, m) && status.drifted == ""
    }

    /** Nothing fails and nobody interferes, and the target is there to be written to if need be. */
    predicate Undisturbed(want: string, ensureHTTPS: bool)
      reads this, cloud
    {
      && Spared(faults) && Smooth(cloud.turns) && Here(cloud.state).Some?
      && (Owes(kind, Here(cloud.state), want, ensureHTTPS) ==> Takes(kind, Here(cloud.state)))
    }

    /** The observation, and what follows from it. */
    method Compare(b: Status, m: Material, ensure: bool, now: int) returns (end: End)
      requires Valid() && !deleting && StatusOk(kind, b) && !b.conflict && want == Some((Wanted(kind, m), ensure))
      requires b.appliedFingerprint == status.appliedFingerprint && b.boundAccount == status.boundAccount
      requires kind.OSS? ==> !ensure
      requires FingerprintOf(m.pem) == m.fingerprint && m.fingerprint != "" && Wanted(kind, m) != "" && m.casName != ""
      modifies this`status, this`faults, this`writes, cloud
      ensures Valid() && Lawful()
      ensures status.appliedFingerprint != old(status.appliedFingerprint) ==> status.appliedFingerprint == m.fingerprint
      ensures status == old(status) || status.observedGeneration == b.observedGeneration
      ensures end.Unchanged? || end.Wrote? ==> InPlace(m, ensure)
      ensures end.Fenced? ==> status.conflict && !status.ready && status.applied == b.applied && writes == old(writes)
      ensures end.ObserveFailed? ==> status.applied == b.applied || (!status.applied && Here(cloud.state).None?)
      ensures end.ApplyFailed? ==> !status.applied && !status.ready && status.appliedFingerprint == old(status.appliedFingerprint)
      ensures end.Unchanged? ==> writes == old(writes) && (old(Smooth(cloud.turns)) ==> cloud.state == old(cloud.state))
      ensures end in {Stopped, ObserveFailed, Fenced, Unchanged, ApplyFailed, Wrote}
      ensures old(Undisturbed(Wanted(kind, m), ensure)) ==>
                end == old(Verdict(kind, status.boundAccount, cloud.state.account, Here(cloud.state), Wanted(kind, m), ensure))
      ensures old(Spared(faults) && Surviving(cloud.turns)) ==> !end.Stopped?
    {
      hide Satisfied, CertRef, Sound, FingerprintOf, Owes, Rightful, View, LoadMaterial, IsRest, MovesIn, SentUnder;
      hide Spared;
      hide Smooth, Takes, Verdict, InPlace, StatusOk;
      hide Bounded, Surviving;
      var obs, oerr := ObserveTarget();
      ghost var between := cloud.turns;
      if old(Smooth(cloud.turns)) { SmoothPassesNothing(old(cloud.turns), between); }
      if old(Surviving(cloud.turns)) { SurvivingRest(old(cloud.turns), between); }
      if oerr.Some? {
        end := NoteObserveError(b, oerr.value);
        return;
      }
      end := Decide(b, m, ensure, obs, now);
      RestOfRest(old(cloud.turns), between, cloud.turns);
    }

    /** What the observation calls for: nothing under another account, nothing if the target is as wanted,
        and one write otherwise. */
    method Decide(b: Status, m: Material, ensure: bool, obs: Observed, now: int) returns (end: End)
      requires Valid() && !deleting && StatusOk(kind, b) && !b.conflict && want == Some((Wanted(kind, m), ensure))
      requires b.appliedFingerprint == status.appliedFingerprint && b.boundAccount == status.boundAccount
      requires Here(cloud.state).Some? && obs == View(kind, Here(cloud.state).value, obs.account)
      requires obs.account in {"", cloud.state.account} && (kind.OSS? ==> !ensure)
      requires FingerprintOf(m.pem) == m.fingerprint && m.fingerprint != "" && Wanted(kind, m) != "" && m.casName != ""
      modifies this`status, this`faults, this`writes, cloud
      ensures Valid() && Lawful()
      ensures status.appliedFingerprint != old(status.appliedFingerprint) ==> status.appliedFingerprint == m.fingerprint
      ensures status == old(status) || status.observedGeneration == b.observedGeneration
      ensures (end.Unchanged? || end.Wrote?) && kind.FC3? ==> status.appliedCertRef == b.appliedCertRef
      ensures end.Unchanged? || end.Wrote? ==>
                && InPlace(m, ensure)
                && status.boundAccount == (if b.boundAccount == "" then obs.account else b.boundAccount)
                && status.lastApplied == if end.Wrote? then Some(now) else b.lastApplied
      ensures end.ApplyFailed? ==>
                var there := if kind.FC3? then obs.fingerprint else obs.certRef;
                var ours := if kind.FC3? then b.appliedFingerprint else b.appliedCertRef;
                var wanted := if kind.FC3? then m.fingerprint else CertRef(m.certId, m.region);
                status.drifted == if there == "" || there == ours || there == wanted then "" else there
      ensures end.Fenced? ==> status.conflict && !status.ready && status.applied == b.applied
      ensures end.Fenced? || end.Unchanged? ==> writes == old(writes) && cloud.state == old(cloud.state)
      ensures end.ApplyFailed? ==> !status.applied && !status.ready && status.appliedFingerprint == old(status.appliedFingerprint)
      ensures end in {Stopped, Fenced, Unchanged, ApplyFailed, Wrote}
      ensures old(Undisturbed(Wanted(kind, m), ensure)) ==>
                end == old(Verdict(kind, status.boundAccount, obs.account, Here(cloud.state), Wanted(kind, m), ensure))
      ensures old(Spared(faults) && Surviving(cloud.turns)) ==> !end.Stopped?
    {
      hide Satisfied, CertRef, FingerprintOf, Owes, Rightful, View, Spared, Smooth, Takes;
      hide Bounded, IsRest, MovesIn, StatusOk;
      hide Drifted, SentUnder, Shows, Surviving;
      hide InPlace, Frozen;
      RestOfAll(cloud.turns);
      FrozenIsOk(b, m, obs.account, false, now);
      if b.boundAccount != "" && b.boundAccount != obs.account {
        var ok := Patch(Aggregated(b.(conflict := true)));
        return if ok then Fenced else Stopped;
      }
      SeenIsOwed(obs, Wanted(kind, m), ensure);
      if Current(kind, obs) == Wanted(kind, m) && Satisfied(obs.protocol, ensure) {
        end := Acknowledge(b, m, ensure, obs, now);
        return;
      }
      DriftIs(b, m, obs);
      end := WriteTarget(b.(drifted := Drifted(b, m, obs)), m, ensure, obs, now);
    }

    /** The target is as wanted: that is all there is to record. */
    method Acknowledge(b: Status, m: Material, ensure: bool, obs: Observed, now: int) returns (end: End)
      requires Valid() && !deleting && StatusOk(kind, b) && !b.conflict
      requires b.appliedFingerprint == status.appliedFingerprint && b.boundAccount == status.boundAccount
      requires Here(cloud.state).Some? && !Owes(kind, Here(cloud.state), Wanted(kind, m), ensure)
      requires obs.account in {"", cloud.state.account} && m.fingerprint != "" && Wanted(kind, m) != ""
      modifies this`status, this`faults
      ensures Valid() && Lawful()
      ensures status.appliedFingerprint != old(status.appliedFingerprint) ==> status.appliedFingerprint == m.fingerprint
      ensures status == old(status) || status.observedGeneration == b.observedGeneration
      ensures end in {Stopped, Unchanged} && (old(Spared(faults)) ==> end.Unchanged?)
      ensures end.Unchanged? ==>
                && InPlace(m, ensure) && (kind.FC3? ==> status.appliedCertRef == b.appliedCertRef)
                && status.boundAccount == (if b.boundAccount == "" then obs.account else b.boundAccount)
                && status.lastApplied == b.lastApplied
    {
      hide Satisfied, CertRef, FingerprintOf, Owes, Rightful, View, Spared, Bounded, IsRest, MovesIn, StatusOk, SentUnder;
      RestOfAll(cloud.turns);
      FrozenIsOk(b, m, obs.account, false, now);
      var ok := Patch(Aggregated(Frozen(kind, b, m, obs.account, false, now)));
      end := if ok then Unchanged else Stopped;
    }

    /** Only a target that is not there takes Applied away; a refused or failed read says nothing about it. */
    method NoteObserveError(prepared: Status, code: Code) returns (end: End)
      requires Valid() && !deleting && StatusOk(kind, prepared)
      requires prepared.boundAccount == status.boundAccount
      modifies this`status, this`faults
      ensures Valid() && (old(Spared(faults)) ==> Spared(faults))
      ensures status == old(status) || (status.appliedFingerprint == prepared.appliedFingerprint &&
                status.boundAccount == prepared.boundAccount && status.observedGeneration == prepared.observedGeneration)
      ensures end in {Stopped, ObserveFailed}
      ensures end.ObserveFailed? ==> (status.applied <==> prepared.applied && code != TargetNotFound)
      ensures code == Crash ==> end.Stopped? && status == old(status)
      ensures end.ObserveFailed? ==> (status.ready <==> code != Auth && status.applied && !prepared.conflict)
      ensures code != Crash && old(Spared(faults)) ==> end.ObserveFailed?
    {
      if code == Crash { return Stopped; }
      var b := prepared;
      if code == TargetNotFound { b := b.(applied := false); }
      b := if code == Auth then b.(ready := false) else Aggregated(b);
      var ok := Patch(b);
      return if ok then ObserveFailed else Stopped;
    }

    lemma SeenIsOwed(obs: Observed, want: string, ensure: bool)
      requires Here(cloud.state).Some? && obs == View(kind, Here(cloud.state).value, obs.account)
      ensures Owes(kind, Here(cloud.state), want, ensure) <==> !(Current(kind, obs) == want && Satisfied(obs.protocol, ensure))
    {
    }

    /** What a write, or the discovery that none is needed, makes of a status in order is in order. */
    lemma FrozenIsOk(b: Status, m: Material, account: string, wrote: bool, now: int)
      requires StatusOk(kind, b) && m.fingerprint != "" && Wanted(kind, m) != ""
      ensures StatusOk(kind, Aggregated(Frozen(kind, b, m, account, wrote, now)))
      ensures StatusOk(kind, Aggregated(b.(applied := false))) && StatusOk(kind, Aggregated(b.(conflict := true)))
    {
      hide CertRef;
    }

    lemma DriftIs(b: Status, m: Material, obs: Observed)
      requires StatusOk(kind, b)
      ensures StatusOk(kind, b.(drifted := Drifted(b, m, obs)))
      ensures var there := if kind.FC3? then obs.fingerprint else obs.certRef;
              var ours := if kind.FC3? then b.appliedFingerprint else b.appliedCertRef;
              var wanted := if kind.FC3? then m.fingerprint else CertRef(m.certId, m.region);
              Drifted(b, m, obs) == if there == "" || there == ours || there == wanted then "" else there
    {
    }

    /** Step 6 and 7. A failed write records nothing as applied. */
    method WriteTarget(b: Status, m: Material, ensure: bool, obs: Observed, now: int) returns (end: End)
      requires Valid() && !deleting && StatusOk(kind, b) && !b.conflict && want == Some((Wanted(kind, m), ensure))
      requires b.appliedFingerprint == status.appliedFingerprint && b.boundAccount == status.boundAccount
      requires Owes(kind, Here(cloud.state), Wanted(kind, m), ensure) && (kind.OSS? ==> !ensure)
      requires FingerprintOf(m.pem) == m.fingerprint && m.fingerprint != "" && Wanted(kind, m) != "" && m.casName != ""
      requires obs.account in {"", cloud.state.account} && (b.boundAccount != "" ==> obs.account == b.boundAccount)
      modifies this`status, this`faults, this`writes, cloud
      ensures Valid() && Lawful() && |writes| == |old(writes)| + 1
      ensures status.appliedFingerprint != old(status.appliedFingerprint) ==> status.appliedFingerprint == m.fingerprint
      ensures status == old(status) || status.observedGeneration == b.observedGeneration
      ensures end.Wrote? && kind.FC3? ==> status.appliedCertRef == b.appliedCertRef
      ensures end.Wrote? ==>
                && InPlace(m, ensure) && status.lastApplied == Some(now)
                && status.boundAccount == (if b.boundAccount == "" then obs.account else b.boundAccount)
      ensures end in {Stopped, ApplyFailed, Wrote}
      ensures end.ApplyFailed? ==> status.drifted == b.drifted
      ensures old(Undisturbed(Wanted(kind, m), ensure)) ==> end.Wrote?
      ensures end.ApplyFailed? ==> !status.applied && !status.ready && status.appliedFingerprint == old(status.appliedFingerprint)
      ensures old(Spared(faults) && Surviving(cloud.turns)) ==> !end.Stopped?
    {
      hide Satisfied, CertRef, FingerprintOf, Owes, Rightful, View, Smooth, Takes, Surviving, Spared, Shows;
      hide StatusOk, Bounded, IsRest, MovesIn;
      FrozenIsOk(b, m, obs.account, true, now);
      var aerr := ApplyMaterial(m, ensure, obs);
      if aerr.Some? {
        if aerr == Some(Crash) { return Stopped; }
        var ok := Patch(Aggregated(b.(applied := false)));
        return if ok then ApplyFailed else Stopped;
      }
      var ok := Patch(Aggregated(Frozen(kind, b, m, obs.account, true, now)));
      return if ok then Wrote else Stopped;
    }

    /** What the round wants is on the target and on record. */
    ghost predicate Settled(input: Input)
      reads this, cloud
    {
      && Want(kind, input).Some? && status.ready && status.applied && status.drifted == ""
      && Here(cloud.state).Some? && !Owes(kind, Here(cloud.state), Want(kind, input).value.0, Want(kind, input).value.1)
      && Recorded(kind, status) == Want(kind, input).value.0
    }

    predicate Quiescent(input: Input)
      reads this, cloud
    {
      Want(kind, input).Some? && Undisturbed(Want(kind, input).value.0, Want(kind, input).value.1)
    }

    /** How a round will end that is admitted and undisturbed. */
    function Outlook(input: Input): End
      requires Want(kind, input).Some?
      reads this, cloud
    {
      Verdict(kind, status.boundAccount, cloud.state.account, Here(cloud.state),
              Want(kind, input).value.0, Want(kind, input).value.1)
    }

    /** One round of a Binding that is not being deleted. */
    method Reconcile(input: Input) returns (end: End)
      requires Valid() && !deleting && Plausible(input)
      modifies this`status, this`faults, this`changes, this`want, this`writes, cloud
      ensures Valid() && Lawful() && Loaded(Want(kind, input))
      ensures status.appliedFingerprint != old(status.appliedFingerprint) ==>
                input.secret.Some? && status.appliedFingerprint == input.secret.value.fingerprint
      ensures status == old(status) || status.observedGeneration == input.generation
      ensures writes != old(writes) ==>
                && (forall c :: Live(input.peers, c) ==> !Less(c, input.self))
                && (forall c :: c in input.peers && !c.deleting && c.uid != input.self.uid ==>
                      var s := input.self;
                      || s.created < c.created
                      || (s.created == c.created &&
                          exists k :: 0 <= k <= |s.uid| && k < |c.uid| && s.uid[..k] == c.uid[..k] &&
                                      (k == |s.uid| || s.uid[k] < c.uid[k])))
                && input.certificate.Some? && input.certificate.value.current.Some? && input.secret.Some?
                && input.certificate.value.current.value.fingerprint == input.secret.value.fingerprint
      ensures end.Unchanged? || end.Wrote? ==> status.ready && status.applied && input.secret.Some? &&
                                               status.appliedFingerprint == input.secret.value.fingerprint
      ensures end in {Conflicting, Gated, NotReady} ==> cloud.state == old(cloud.state) && !status.ready
      ensures end.Conflicting? ==> status.conflict && status.applied == old(status.applied)
      ensures end.NotReady? ==> status.applied == old(status.applied)
      ensures end.Gated? ==> !status.applied && !status.conflict
      ensures end.Fenced? ==> status.conflict && !status.ready && status.applied == old(status.applied) && writes == old(writes)
      ensures end.ApplyFailed? ==> !status.applied && !status.ready
      ensures !Admitted(kind, domain, input) ==> end in {Conflicting, Gated, NotReady, Stopped} && cloud.state == old(cloud.state)
      ensures !Admitted(kind, domain, input) && old(Spared(faults)) ==> !end.Stopped?
      ensures end.Unchanged? || end.Wrote? ==> Settled(input)
      ensures end.Unchanged? ==> writes == old(writes) && (old(Smooth(cloud.turns)) ==> cloud.state == old(cloud.state))
      ensures Admitted(kind, domain, input) && input.credentials && old(Quiescent(input)) ==>
                end == old(Outlook(input))
      ensures old(Spared(faults) && Surviving(cloud.turns)) ==> !end.Stopped?
    {
      hide Sound, Covers, FingerprintOf, Wanted, Less, Owes, StatusOk, Rightful, Admitted, Verdict, Spared, Smooth;
      hide Takes;
      hide Bounded, Surviving, IsRest, MovesIn, Elected;
      RestOfAll(cloud.turns);
      var early, next, m := Prepare(input, status);
      if early.Some? {
        var ok := Patch(next);
        return if ok then early.value else Stopped;
      }
      end := Execute(input, next, m);
    }

    /** What a deletion round keeps: whose the target is and what is recorded of it, and every write is an
        unbinding of exactly that. */
    twostate predicate OnlyUnbinds()
      reads this, cloud
    {
      && Lawful()
      && status.boundAccount == old(status.boundAccount) && status.appliedFingerprint == old(status.appliedFingerprint)
      && Recorded(kind, status) == Recorded(kind, old(status))
      && forall i :: |old(writes)| <= i < |writes| ==> writes[i].unbind && writes[i].recorded == Recorded(kind, old(status))
    }

    /** No call to the target fails, nobody interferes, and what is to be unbound can be. */
    predicate Clearable()
      reads `status, cloud
    {
      Smooth(cloud.turns) && (Shows(kind, Here(cloud.state), Recorded(kind, status)) ==> Takes(kind, Here(cloud.state)))
    }

    /** The target answers for another account than the one bound. */
    predicate Foreign()
      reads `status, cloud
    {
      Here(cloud.state).Some? && status.boundAccount != "" && status.boundAccount != cloud.state.account
    }

    /** Unbinds only what this Binding has recorded, and only where it is bound. fenced tells that the
        target answered for another account, or for none. */
    method UnbindTarget(credentials: bool) returns (err: Option<Code>, ghost fenced: bool)
      requires Valid() && deleting && status.appliedFingerprint != ""
      modifies this`writes, cloud
      ensures Valid() && OnlyUnbinds()
      ensures err.None? && cloud.state.external == old(cloud.state.external) && !fenced ==>
                !Shows(kind, Here(cloud.state), Recorded(kind, status))
      ensures fenced ==> status.boundAccount != "" && writes == old(writes)
      ensures old(Surviving(cloud.turns)) ==> err != Some(Crash)
      ensures old(Clearable()) && credentials ==> err.None? && fenced == old(Foreign())
      ensures !credentials ==> err == Some(Permanent) && !fenced && cloud.state == old(cloud.state) && writes == old(writes)
    {
      hide FingerprintOf, Smooth, Takes, Rightful, Surviving;
      fenced := false;
      if !credentials { return Some(Permanent), false; }
      var obs, oerr := ObserveTarget();
      if oerr.Some? { return if oerr == Some(TargetNotFound) then None else oerr, false; }
      if status.boundAccount != "" && status.boundAccount != obs.account { return None, true; }
      if Current(kind, obs) != Recorded(kind, status) { return None, false; }
      ghost var between := cloud.turns;
      if old(Smooth(cloud.turns)) { SmoothPassesNothing(old(cloud.turns), between); }
      if old(Surviving(cloud.turns)) { SurvivingRest(old(cloud.turns), between); }
      err := ClearTarget(obs);
      RestOfRest(old(cloud.turns), between, cloud.turns);
    }

    /** The one write of a deletion round. */
    method ClearTarget(obs: Observed) returns (err: Option<Code>)
      requires Valid() && deleting && status.appliedFingerprint != ""
      requires Shows(kind, Here(cloud.state), Recorded(kind, status)) && Current(kind, obs) == Recorded(kind, status)
      requires status.boundAccount != "" ==> obs.account == status.boundAccount == cloud.state.account
      modifies this`writes, cloud
      ensures Valid() && OnlyUnbinds() && |writes| == |old(writes)| + 1
      ensures err.None? ==> !Shows(kind, Here(cloud.state), Recorded(kind, status))
      ensures old(Surviving(cloud.turns)) ==> err != Some(Crash)
      ensures old(Clearable()) ==> err.None?
    {
      hide FingerprintOf, IsHTTPSOnly, Smooth, Takes, Surviving, HasHTTPS, HasHTTP;
      writes := writes + [Write(true, status.boundAccount, Recorded(kind, status), obs, cloud.state.account)];
      ghost var committed;
      err, committed := Cleanup(kind, cloud);
    }

    /** The time that failures may hold the deletion up is over. */
    predicate Overdue(policy: Policy, now: int)
      reads `status
    {
      policy.onFailure != "Block" && status.cleanupStartedAt.Some? && now - status.cleanupStartedAt.value >= policy.gracePeriod
    }

    /** The clock starts, then the target is unbound, or the attempt given up. */
    method TryUnbind(policy: Policy, now: int, credentials: bool)
      returns (goOn: bool, ghost abandoned: bool, ghost fenced: bool)
      requires Valid() && deleting && status.appliedFingerprint != ""
      modifies this`status, this`faults, this`writes, cloud
      ensures Valid() && OnlyUnbinds()
      ensures goOn && abandoned ==> Overdue(policy, now)
      ensures old(status.cleanupStartedAt).Some? ==> status.cleanupStartedAt == old(status.cleanupStartedAt)
      ensures old(status.cleanupStartedAt).None? ==> status.cleanupStartedAt in {None, Some(now)}
      ensures old(Surviving(cloud.turns) && Spared(faults)) ==> (Overdue(policy, now) ==> goOn) && Spared(faults)
      ensures goOn || old(Spared(faults)) ==> status.cleanupStartedAt.Some?
      ensures goOn && !abandoned && !fenced && cloud.state.external == old(cloud.state.external) ==>
                !Shows(kind, Here(cloud.state), Recorded(kind, status))
      ensures old(Clearable() && Spared(faults)) && credentials ==>
                goOn && !abandoned && fenced == old(Foreign()) && Spared(faults)
    {
      hide View, Current, Rightful, Shows, Smooth, Takes, Spared, Surviving;
      goOn, abandoned, fenced := false, false, false;
      if status.cleanupStartedAt.None? {
        var ok := Patch(status.(cleanupStartedAt := Some(now)));
        if !ok { return; }
      }
      var err;
      err, fenced := UnbindTarget(credentials);
      if err == Some(Crash) { return; }
      if err.Some? {
        var elapsed := now - status.cleanupStartedAt.value;
        if !ShouldAbandon(policy, elapsed) {
          var _ := Patch(status.(ready := false));
          return;
        }
        abandoned := true;
      }
      goOn := true;
    }

    /** From here on only deletion rounds follow. */
    method BeginDeletion()
      requires Valid()
      modifies this`deleting
      ensures Valid() && deleting
    {
      deleting := true;
    }

    /** One deletion round. By default the target is left alone; to unbind is bounded by the policy. */
    method ReconcileDelete(unbind: bool, policy: Policy, now: int, credentials: bool)
      returns (ghost abandoned: bool, ghost fenced: bool)
      requires Valid() && finalizer
      modifies this`status, this`faults, this`finalizer, this`deleting, this`writes, cloud
      ensures Valid() && deleting && OnlyUnbinds()
      ensures !unbind || status.appliedFingerprint == "" ==> cloud.state == old(cloud.state) && writes == old(writes)
      ensures !finalizer && abandoned ==>
                && policy.onFailure != "Block"
                && now - (if old(status.cleanupStartedAt).Some? then old(status.cleanupStartedAt).value else now)
                   >= policy.gracePeriod
      ensures (old(Surviving(cloud.turns) && Spared(faults)) && policy.onFailure != "Block" &&
               now - (if old(status.cleanupStartedAt).Some? then old(status.cleanupStartedAt).value else now)
               >= policy.gracePeriod) ==> !finalizer
      ensures !finalizer && unbind && status.appliedFingerprint != "" && !abandoned && !fenced
              && cloud.state.external == old(cloud.state.external) ==>
                !Shows(kind, Here(cloud.state), Recorded(kind, status))
      ensures old(Spared(faults)) && (unbind && status.appliedFingerprint != "" ==> credentials && old(Clearable())) ==>
                !finalizer && !abandoned && (fenced <==> unbind && status.appliedFingerprint != "" && old(Foreign()))
    {
      hide View, Current, Rightful, Owes, Shows, StatusOk, Recorded, Smooth, Takes, Spared, Surviving, Clearable, Foreign;
      hide SentUnder, IsRest, MovesIn;
      PassesItself();
      abandoned, fenced := false, false;
      BeginDeletion();
      if unbind && status.appliedFingerprint != "" {
        var goOn;
        goOn, abandoned, fenced := TryUnbind(policy, now, credentials);
        if !goOn { return; }
      }
      RemoveFinalizer();
    }

    method RemoveFinalizer()
      requires Valid()
      modifies this`faults, this`finalizer
      ensures Valid() && (old(Spared(faults)) ==> !finalizer && Spared(faults))
      ensures var fault := old(if faults == [] then Healthy else faults[0]);
              && faults == old(if faults == [] then [] else faults[1..])
              && finalizer == (fault.FailFirst? && old(finalizer))
    {
      hide Rightful, Owes, Shows, StatusOk, Recorded;
      var fault := if faults == [] then Healthy else faults[0];
      faults := if faults == [] then [] else faults[1..];
      if !fault.FailFirst? { finalizer := false; }
    }

    twostate lemma PassesItself()
      requires cloud.state == old(cloud.state) && cloud.turns == old(cloud.turns)
      ensures Passed(cloud)
    {
    }
  }

  datatype Event =
    | Round(input: Input)
    | Delete(unbind: bool, policy: Policy, now: int, credentials: bool)
    | SwitchAccount(account: string)
    | Drift(moves: seq<SiteMove>)

  function WantOf(kind: Kind, e: Event): Option<(string, bool)> {
    if e.Round? then Want(kind, e.input) else None
  }

  /** How often an event touches the target from outside. */
  function Touches(e: Event): nat {
    match e
    case SwitchAccount(_) => 1
    case Drift(moves) => |moves|
    case _ => 0
  }

  /** What the rounds among the first n events want last, if last is what was wanted before. */
  function WantedAfter(kind: Kind, last: Option<(string, bool)>, events: seq<Event>, n: nat): Option<(string, bool)>
    requires n <= |events|
  {
    if n == 0 then last
    else if WantOf(kind, events[n - 1]).Some? then WantOf(kind, events[n - 1])
    else WantedAfter(kind, last, events, n - 1)
  }

  /** How often the rounds among the first n events want something else than the one before. */
  function Changes(kind: Kind, last: Option<(string, bool)>, events: seq<Event>, n: nat): nat
    requires n <= |events|
  {
    if n == 0 then 0
    else
      var before, after := WantedAfter(kind, last, events, n - 1), WantedAfter(kind, last, events, n);
      Changes(kind, last, events, n - 1) + if before.Some? && after != before then 1 else 0
  }

  /** How often the first n events touch the target from outside. */
  function Outside(events: seq<Event>, n: nat): nat
    requires n <= |events|
  {
    if n == 0 then 0
    else Outside(events, n - 1) + Touches(events[n - 1])
  }

  predicate SomeDelete(events: seq<Event>, n: nat)
    requires n <= |events|
  {
    exists i :: 0 <= i < n && events[i].Delete?
  }

  /** c changes have been counted with want loaded last, and no more than the rounds so far make up for; and
      if what was loaded is not what was wanted last, there is one in store. */
  predicate Behind(kind: Kind, last: Option<(string, bool)>, events: seq<Event>, n: nat, want: Option<(string, bool)>, c: nat)
    requires n <= |events|
  {
    var current := WantedAfter(kind, last, events, n);
    && (want.Some? ==> current.Some?)
    && c + (if want.Some? && want != current then 1 else 0) <= Changes(kind, last, events, n)
  }

  /** Rounds that load less often see no more changes. */
  lemma LoadedLater(kind: Kind, last: Option<(string, bool)>, events: seq<Event>, n: nat,
                    want: Option<(string, bool)>, next: Option<(string, bool)>, c: nat)
    requires n < |events| && (next == want || (next.Some? && next == WantOf(kind, events[n])))
    requires Behind(kind, last, events, n, want, c)
    ensures Behind(kind, last, events, n + 1, next, c + if want.Some? && next != want then 1 else 0)
  {
  }

  /** One event: what others did is what passed of their turns and what the event says. */
  method Happen(binding: Binding, e: Event)
    requires binding.Valid() && (e.Round? ==> Plausible(e.input))
    modifies binding, binding.cloud
    ensures binding.Valid() && old(binding.writes) <= binding.writes && binding.born == old(binding.born)
    ensures binding.Loaded(WantOf(binding.kind, e)) && binding.StaysBound()
    ensures IsRest(old(binding.cloud.turns), binding.cloud.turns)
    ensures binding.cloud.state.external + MovesIn(binding.cloud.turns)
            == old(binding.cloud.state.external + MovesIn(binding.cloud.turns)) + Touches(e)
    ensures binding.deleting ==> old(binding.deleting) || e.Delete?
  {
    hide Rightful, Owes, Shows, StatusOk, Recorded, Want, MovesIn;
    RestOfAll(binding.cloud.turns);
    match e {
      case Round(input) =>
        if !binding.deleting && binding.finalizer { var _ := binding.Reconcile(input); }
      case Delete(unbind, policy, now, credentials) =>
        if binding.finalizer { ghost var _, _ := binding.ReconcileDelete(unbind, policy, now, credentials); }
      case SwitchAccount(account) => binding.cloud.SwitchAccount(account);
      case Drift(moves) =>
        MovesAreCounted(binding.cloud.state, moves);
        binding.cloud.state := AllMoved(binding.cloud.state, moves);
    }
  }

  /** A whole life: rounds, then deletion rounds, and whatever others do between and within them. The
      target is written at most once, plus once for every change of the wanted material, for every change
      somebody else made to it, and for the unbinding. The wanted material changes no more often than the
      rounds want something else than the one before, and what others did is what passed of their turns
      and what the events say. The account the Binding is bound to stays, and from then on every write
      goes to that account, on an observation of that account; and whatever is unbound was this Binding's
      own. */
  method Operate(binding: Binding, events: seq<Event>)
    requires binding.Valid()
    requires forall i :: 0 <= i < |events| && events[i].Round? ==> Plausible(events[i].input)
    modifies binding, binding.cloud
    ensures binding.Valid() && old(binding.writes) <= binding.writes && binding.StaysBound()
    ensures binding.born == old(binding.born)
    ensures var s, t := binding.born, binding.cloud.state;
            t.writes - s.writes <= 1 + (if binding.deleting then 1 else 0) + binding.changes + (t.external - s.external)
    ensures binding.changes <= old(binding.changes) + Changes(binding.kind, old(binding.want), events, |events|)
    ensures IsRest(old(binding.cloud.turns), binding.cloud.turns)
    ensures binding.cloud.state.external + MovesIn(binding.cloud.turns)
            == old(binding.cloud.state.external + MovesIn(binding.cloud.turns)) + Outside(events, |events|)
    ensures binding.deleting ==> old(binding.deleting) || SomeDelete(events, |events|)
    ensures forall i :: 0 <= i < |binding.writes| ==> Rightful(binding.kind, binding.writes[i])
  {
    hide Rightful, Owes, Shows, StatusOk, Recorded, WantOf, IsRest, Touches, MovesIn;
    ghost var kind, last, before := binding.kind, binding.want, binding.changes;
    RestOfAll(binding.cloud.turns);
    for n := 0 to |events|
      invariant binding.Valid() && old(binding.writes) <= binding.writes && binding.born == old(binding.born)
      invariant binding.StaysBound() && before <= binding.changes
      invariant Behind(kind, last, events, n, binding.want, binding.changes - before)
      invariant IsRest(old(binding.cloud.turns), binding.cloud.turns)
      invariant binding.cloud.state.external + MovesIn(binding.cloud.turns)
                == old(binding.cloud.state.external + MovesIn(binding.cloud.turns)) + Outside(events, n)
      invariant binding.deleting ==> old(binding.deleting) || SomeDelete(events, n)
    {
      ghost var want, changes, turns := binding.want, binding.changes, binding.cloud.turns;
      Happen(binding, events[n]);
      LoadedLater(kind, last, events, n, want, binding.want, changes - before);
      RestOfRest(old(binding.cloud.turns), turns, binding.cloud.turns);
    }
  }

  /** The promise in its plainest form: a Binding whose rounds all want the same, and whose target nobody
      else touches, writes to it once. */
  method WritesOnce(binding: Binding, events: seq<Event>, ghost want: (string, bool))
    requires binding.Valid() && !binding.deleting && binding.changes == 0 && binding.want.None?
    requires binding.born == binding.cloud.state && MovesIn(binding.cloud.turns) == 0
    requires forall i :: 0 <= i < |events| ==>
               events[i].Round? && Plausible(events[i].input) && Want(binding.kind, events[i].input) in {None, Some(want)}
    modifies binding, binding.cloud
    ensures binding.cloud.state.writes <= old(binding.cloud.state.writes) + 1
  {
    Steady(binding.kind, events, want, |events|);
    Operate(binding, events);
  }

  /** Undisturbed, a round that is admitted brings the target to what it wants, and another one that wants
      the same then finds nothing to do. */
  method Converges(binding: Binding, first: Input, second: Input)
    requires binding.Valid() && !binding.deleting && Plausible(first) && Plausible(second)
    requires Admitted(binding.kind, binding.domain, first) && Admitted(binding.kind, binding.domain, second)
    requires Want(binding.kind, first) == Want(binding.kind, second) && first.credentials && second.credentials
    requires Spared(binding.faults) && Smooth(binding.cloud.turns) && Takes(binding.kind, Here(binding.cloud.state))
    requires binding.status.boundAccount in {"", binding.cloud.state.account}
    modifies binding, binding.cloud
    ensures binding.Settled(second) && binding.cloud.state.writes <= old(binding.cloud.state.writes) + 1
    ensures !old(Owes(binding.kind, Here(binding.cloud.state), Want(binding.kind, first).value.0, Want(binding.kind, first).value.1)) ==>
              binding.cloud.state == old(binding.cloud.state)
  {
    hide Rightful, Owes, StatusOk, Recorded, Wanted, LoadMaterial, MovesIn, Elected, IsFor;
    ghost var turns := binding.cloud.turns;
    var end := binding.Reconcile(first);
    SmoothPassesNothing(turns, binding.cloud.turns);
    end := binding.Reconcile(second);
    assert end == Unchanged;
  }

  lemma {:induction false} Steady(kind: Kind, events: seq<Event>, want: (string, bool), n: nat)
    requires n <= |events|
    requires forall i :: 0 <= i < |events| ==> events[i].Round? && Want(kind, events[i].input) in {None, Some(want)}
    ensures Changes(kind, None, events, n) == 0 == Outside(events, n) && WantedAfter(kind, None, events, n) in {None, Some(want)}
  {
    if n > 0 { Steady(kind, events, want, n - 1); }
  }
}
