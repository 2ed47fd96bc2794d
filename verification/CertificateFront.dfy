/**
 The front half of a certificate round: which issuer, which Secret name, and what may be written to
 the cert-manager Certificate. Any call may fail, and the process may die between the Certificate
 write and the status patch that remembers the issuer.
 */
module CertificateFront {
  import opened Wrappers
  import opened Cas
  import opened ClusterObjects

  const DEFAULT_ISSUER_KIND := "Issuer"
  const DEFAULT_ISSUER_GROUP := "cert-manager.io"

  datatype Spec = Spec(issuer: Option<IssuerRef>, secretName: string)

  /** The persisted part: the pinned issuer, the Secret name in effect, and the verdict. */
  datatype Status = Status(pinned: Option<IssuerRef>, secretName: string, ready: bool)

  datatype Source = FromSpec | FromStatus | FromExisting | FromDefault

  function Normalize(r: IssuerRef): IssuerRef {
    IssuerRef(r.name, if r.kind == "" then DEFAULT_ISSUER_KIND else r.kind,
              if r.group == "" then DEFAULT_ISSUER_GROUP else r.group)
  }

  predicate Named(r: Option<IssuerRef>) {
    r.Some? && r.value.name != ""
  }

  /** spec, then the pin, then the existing Certificate, then the flags of this start of the operator. */
  function Resolve(spec: Option<IssuerRef>, pinned: Option<IssuerRef>, existing: Option<IssuerRef>, flags: IssuerRef)
    : Option<(IssuerRef, Source)>
  {
    if Named(spec) then Some((Normalize(spec.value), FromSpec))
    else if Named(pinned) then Some((Normalize(pinned.value), FromStatus))
    else if Named(existing) then Some((Normalize(existing.value), FromExisting))
    else if flags.name != "" then Some((Normalize(flags), FromDefault))
    else None
  }

  function SecretNameFor(crName: string, spec: Spec): string {
    if spec.secretName != "" then spec.secretName else crName + "-tls"
  }

  lemma WantedName(crName: string, spec: Spec)
    ensures SecretNameFor(crName, spec) == (if spec.secretName != "" then spec.secretName else crName + "-tls") != ""
  {
  }

  /** Somebody else's Secret stands under the name. */
  predicate Taken(o: Objects, name: string) {
    name in o.secrets && o.secrets[name] != o.crName
  }

  function IssuerOf(c: Option<CertObject>): Option<IssuerRef> {
    if c.None? then None else Some(c.value.issuer)
  }

  function NameOf(c: Option<CertObject>): Option<string> {
    if c.None? then None else Some(c.value.secretName)
  }

  /** One write of the Certificate: the Secret name it had, the one it got, and the annotation of the
      Secret that stood under that name. */
  datatype NameWrite = NameWrite(previous: Option<string>, name: string, stood: Option<string>)

  function NameWriteOf(o: Objects, name: string): NameWrite {
    NameWrite(NameOf(o.certificate), name, if name in o.secrets then Some(o.secrets[name]) else None)
  }

  /** The name stayed, or moved to one under which no Secret or one of ours stood. */
  predicate Guarded(w: NameWrite, crName: string) {
    w.previous == Some(w.name) || w.stood.None? || w.stood == Some(crName)
  }

  /** The one issuer ever written is remembered: in the status, or until the status patch succeeds in
      the Certificate itself. */
  ghost predicate Remembered(written: seq<IssuerRef>, pinned: Option<IssuerRef>, certificate: Option<CertObject>) {
    && (Named(pinned) ==> pinned.value == Normalize(pinned.value))
    && (forall i :: 0 <= i < |written| ==>
          written[i] == written[0] && written[i].name != "" && written[i] == Normalize(written[i]))
    && (|written| > 0 ==> if Named(pinned) then pinned.value == written[0] else IssuerOf(certificate) == Some(written[0]))
  }

  /** An issuer that repeats what has been written and pinned. */
  ghost predicate Repeats(written: seq<IssuerRef>, pinned: Option<IssuerRef>, issuer: IssuerRef) {
    && issuer.name != "" && issuer == Normalize(issuer)
    && (|written| > 0 ==> issuer == written[0])
    && (Named(pinned) ==> issuer == pinned.value)
  }

  /** So the next write repeats it, whatever the flags say by then. */
  lemma NextWriteRepeats(written: seq<IssuerRef>, pinned: Option<IssuerRef>, c: Option<CertObject>, flags: IssuerRef)
    requires Remembered(written, pinned, c)
    ensures var r := Resolve(None, pinned, IssuerOf(c), flags);
            (|written| > 0 ==> r.Some?) && (r.Some? ==> Repeats(written, pinned, r.value.0))
  {
  }

  /** The issuer is the first of the four that has a name, with only what that leaves empty filled in. */
  predicate ComesFrom(issuer: IssuerRef, spec: Option<IssuerRef>, pinned: Option<IssuerRef>, existing: Option<IssuerRef>,
                      flags: IssuerRef)
  {
    var source := if spec.Some? && spec.value.name != "" then spec.value
                  else if pinned.Some? && pinned.value.name != "" then pinned.value
                  else if existing.Some? && existing.value.name != "" then existing.value
                  else flags;
    && issuer.name == source.name != ""
    && issuer.kind == (if source.kind != "" then source.kind else "Issuer")
    && issuer.group == (if source.group != "" then source.group else "cert-manager.io")
  }

  /** The first of the four that has a name is taken as it is, and only what it leaves empty is filled in. */
  lemma ResolvesTo(spec: Option<IssuerRef>, pinned: Option<IssuerRef>, existing: Option<IssuerRef>, flags: IssuerRef)
    ensures var source := if spec.Some? && spec.value.name != "" then spec.value
                          else if pinned.Some? && pinned.value.name != "" then pinned.value
                          else if existing.Some? && existing.value.name != "" then existing.value
                          else flags;
            var r := Resolve(spec, pinned, existing, flags);
            && (r.Some? <==> source.name != "")
            && (r.Some? ==>
                  && r.value.0.name == source.name
                  && r.value.0.kind == (if source.kind != "" then source.kind else "Issuer")
                  && r.value.0.group == (if source.group != "" then source.group else "cert-manager.io")
                  && ComesFrom(r.value.0, spec, pinned, existing, flags))
  {
  }

  lemma ResolvedIsNamed(spec: Option<IssuerRef>, pinned: Option<IssuerRef>, existing: Option<IssuerRef>, flags: IssuerRef)
    ensures var r := Resolve(spec, pinned, existing, flags);
            && (r.Some? ==> r.value.0.name != "")
            && (Named(spec) ==> r.Some? && r.value.0 == Normalize(spec.value))
            && (!Named(spec) && Named(pinned) ==> r.Some? && r.value.0 == Normalize(pinned.value))
  {
  }

  lemma SpecUnset(spec: Option<IssuerRef>, pinned: Option<IssuerRef>, existing: Option<IssuerRef>, flags: IssuerRef)
    requires !Named(spec)
    ensures Resolve(spec, pinned, existing, flags) == Resolve(None, pinned, existing, flags)
  {
  }

  /** How a round can end: at a failed call, without an issuer, refused before there was a Certificate,
      or at its end, with the change of name carried out or refused. */
  datatype End = Stopped | NoIssuer | Blocked | Done(refused: bool, served: CertObject)

  predicate Spared(faults: seq<Fault>) {
    forall i :: 0 <= i < |faults| ==> faults[i].Healthy?
  }

  class Front {
    const api: Api
    var status: Status
    var faults: seq<Fault>
    ghost var written: seq<IssuerRef>
    ghost var names: seq<NameWrite>
    ghost var explicit: bool

    /** As long as no spec has named an issuer, the first one written is remembered. */
    ghost predicate Valid()
      reads this, api
    {
      (api.state.certificate.Some? ==> api.state.certificate.value.secretName != "") &&
      (      !explicit ==>
        && Remembered(written, status.pinned, api.state.certificate)
        && (!Named(status.pinned) && api.state.certificate.Some? ==> !api.state.certificate.value.deleting))
    }

    /** No call to come fails. */
    predicate Undisturbed()
      reads `faults, api
    {
      Spared(faults) && api.Obliging()
    }

    /** At most one write, and it did not turn the Certificate to somebody else's Secret; without one the
        Certificate is as it was, or gone. No Secret is deleted here. */
    twostate predicate GuardsName()
      reads this, api
    {
      && api.state.crName == old(api.state.crName) && api.deletions == old(api.deletions)
      && old(written) <= written && old(names) <= names && |names| <= |old(names)| + 1
      && (forall i :: |old(names)| <= i < |names| ==> Guarded(names[i], api.state.crName))
      && if names == old(names)
         then written == old(written) && (api.state.certificate == old(api.state.certificate) || api.state.certificate.None?)
         else NameOf(api.state.certificate) == Some(names[|names| - 1].name)
    }

    constructor (api: Api, faults: seq<Fault>)
      requires api.state.certificate.None?
      ensures Valid() && this.api == api && status == Status(None, "", false)
      ensures written == [] && names == [] && !explicit
    {
      this.api, this.faults := api, faults;
      status, written, names, explicit := Status(None, "", false), [], [], false;
    }

    /** Others touch the Certificate: anything goes, once the issuer has been pinned. */
    method Interfere(c: Option<CertObject>)
      requires Valid() && Named(status.pinned) && (c.Some? ==> c.value.secretName != "")
      modifies api`state
      ensures Valid() && api.state == old(api.state).(certificate := c)
    {
      api.state := api.state.(certificate := c);
    }

    method PatchStatus(target: Status) returns (err: Option<Error>)
      requires Valid()
      requires target.pinned == status.pinned ||
               (target.pinned.Some? && (!explicit ==> Repeats(written, status.pinned, target.pinned.value)))
      modifies this`status, this`faults
      ensures Valid()
      ensures status == old(status) || status == target
      ensures err.None? ==> status == target
      ensures old(Undisturbed()) ==> err.None? && Undisturbed()
      ensures var fault := old(if faults == [] then Healthy else faults[0]);
              && faults == old(if faults == [] then [] else faults[1..])
              && status == (if fault.FailFirst? then old(status) else target) && err == Failed(fault)
    {
      var fault := if faults == [] then Healthy else faults[0];
      faults := if faults == [] then [] else faults[1..];
      if fault.FailFirst? { return Some(fault.e); }
      status := target;
      return Failed(fault);
    }

    /** Creates or updates the Certificate, as one step with the check of the name before it. What is
        written is on record, with what stood under the name. */
    method WriteCertificate(name: string, issuer: IssuerRef) returns (c: CertObject, err: Option<Error>)
      requires Valid() && name != ""
      requires !explicit ==> Repeats(written, status.pinned, issuer)
      modifies this`faults, this`written, this`names, api`state
      ensures Valid() && api.state.secrets == old(api.state).secrets && api.state.crName == old(api.state).crName
      ensures (api.state == old(api.state) && written == old(written) && names == old(names)) ||
              (api.state.certificate == Some(c) && written == old(written) + [issuer] &&
               names == old(names) + [NameWriteOf(old(api.state), name)])
      ensures names != old(names) ==>
                var w := names[|names| - 1];
                && w.previous == (if old(api.state).certificate.Some? then Some(old(api.state).certificate.value.secretName) else None)
                && w.name == name
                && w.stood == (if name in old(api.state).secrets then Some(old(api.state).secrets[name]) else None)
      ensures err.None? ==> api.state.certificate == Some(c) && written == old(written) + [issuer]
      ensures c.secretName == name && c.issuer == issuer
      ensures !explicit ==> Repeats(written, status.pinned, issuer)
      ensures old(Undisturbed()) ==> err.None? && Undisturbed()
      ensures var fault := old(if faults == [] then Healthy else faults[0]);
              && faults == old(if faults == [] then [] else faults[1..])
              && err == Failed(fault) && (fault.FailFirst? <==> api.state == old(api.state) && written == old(written))
    {
      var fault := if faults == [] then Healthy else faults[0];
      faults := if faults == [] then [] else faults[1..];
      c := CertObject(name, issuer, api.state.certificate.Some? && api.state.certificate.value.deleting);
      if fault.FailFirst? { return c, Some(fault.e); }
      written, names := written + [issuer], names + [NameWriteOf(api.state, name)];
      api.state := api.state.(certificate := Some(c));
      return c, Failed(fault);
    }

    /** Reads keep what is remembered: before the pin, nobody takes the Certificate away. */
    method ReadCertificate() returns (c: Option<CertObject>, err: Option<Error>)
      requires Valid()
      modifies api
      ensures Valid() && GuardsName()
      ensures err.None? ==> c == api.state.certificate
      ensures old(Undisturbed()) ==> err.None? && Undisturbed()
      ensures api.state == old(api.Ahead())
      ensures written == old(written)
    {
      CertificateAhead(api.state, if api.turns == [] then [] else api.turns[0].moves);
      c, err := api.GetCertificate();
    }

    /** Whether somebody else's Secret stands where the Certificate is to be pointed. */
    method SecretNameConflict(name: string) returns (conflict: bool, err: Option<Error>)
      requires Valid()
      modifies api
      ensures Valid() && GuardsName()
      ensures err.None? ==> (conflict <==> name in api.state.secrets && api.state.secrets[name] != api.state.crName)
      ensures old(Undisturbed()) ==> err.None? && Undisturbed()
    {
      CertificateAhead(api.state, if api.turns == [] then [] else api.turns[0].moves);
      var annotation;
      annotation, err := api.GetSecret(name);
      conflict := annotation.Some? && annotation.value != api.state.crName;
    }

    /** Points the Certificate at the wanted Secret, unless that would be somebody else's. */
    method SyncCertificate(existing: Option<CertObject>, wanted: string, issuer: IssuerRef)
      returns (conflict: bool, cert: Option<CertObject>, err: Option<Error>)
      requires Valid() && wanted != "" && existing == api.state.certificate
      requires !explicit ==> Repeats(written, status.pinned, issuer)
      modifies this`faults, this`written, this`names, api
      ensures Valid() && GuardsName()
      ensures !explicit ==> Repeats(written, status.pinned, issuer)
      ensures err.None? ==> (conflict <==> NameOf(existing) != Some(wanted) && Taken(api.state, wanted))
      ensures err.None? && conflict ==>
                && cert == existing && names == old(names)
                && (api.state.certificate == cert || api.state.certificate.None?)
      ensures err.None? && !conflict ==>
                && cert.Some? && api.state.certificate == cert
                && cert.value.secretName == wanted && cert.value.issuer == issuer
                && |names| == |old(names)| + 1 && names[|names| - 1].name == wanted
      ensures old(Undisturbed()) ==> err.None? && Undisturbed()
      ensures written == old(written) || written == old(written) + [issuer]
    {
      hide Remembered, Repeats;
      conflict, cert, err := false, existing, None;
      if existing.None? || existing.value.secretName != wanted {
        conflict, err := SecretNameConflict(wanted);
        if err.Some? { return; }
      }
      if !conflict {
        var c;
        c, err := WriteCertificate(wanted, issuer);
        cert := Some(c);
      }
    }

    /** From the resolved issuer to the verdict. */
    method Serve(existing: Option<CertObject>, wanted: string, issuer: IssuerRef, good: bool) returns (end: End)
      requires Valid() && wanted != "" && issuer.name != "" && existing == api.state.certificate
      requires !explicit ==> Repeats(written, status.pinned, issuer)
      modifies this`status, this`faults, this`written, this`names, api
      ensures Valid() && GuardsName() && !end.NoIssuer?
      ensures end.Blocked? ==> !status.ready && names == old(names) && Taken(api.state, wanted)
      ensures end.Done? ==>
                && status == Status(Some(issuer), end.served.secretName, good && end.served.secretName == wanted)
                && (if end.refused
                    then Taken(api.state, wanted) && end.served.secretName != wanted && names == old(names) &&
                         (api.state.certificate == Some(end.served) || api.state.certificate.None?)
                    else api.state.certificate == Some(end.served) && end.served.secretName == wanted && end.served.issuer == issuer)
                && end.served.secretName != ""
      ensures old(Undisturbed()) ==> !end.Stopped? && Undisturbed()
      ensures written == old(written) || written == old(written) + [issuer]
      ensures end.Blocked? ==> status.pinned == Some(issuer) && written == old(written)
    {
      hide Remembered, Repeats, Normalize, Taken, Undisturbed;
      var conflict, cert, err := SyncCertificate(existing, wanted, issuer);
      if err.Some? { return Stopped; }
      if cert.None? {
        err := PatchStatus(status.(pinned := Some(issuer), ready := false));
        return if err.Some? then Stopped else Blocked;
      }
      var served := cert.value;
      assert served.secretName != "";
      err := PatchStatus(Status(Some(issuer), served.secretName, good && served.secretName == wanted));
      return if err.Some? then Stopped else Done(conflict, served);
    }

    /** What a round that got to its end says of the name: the one in effect, and whether the wanted one was
        refused because somebody else's Secret stands there. */
    ghost predicate Reports(end: End, spec: Spec, good: bool)
      reads this, api
    {
      end.Done? ==>
        var wanted := if spec.secretName != "" then spec.secretName else api.state.crName + "-tls";
        && status.secretName == end.served.secretName
        && (if end.refused
            then Taken(api.state, wanted) && end.served.secretName != wanted &&
                 (api.state.certificate == Some(end.served) || api.state.certificate.None?)
            else api.state.certificate == Some(end.served) && end.served.secretName == wanted)
        && (end.refused <==> status.secretName != "" && status.secretName != wanted)
        && Named(status.pinned) && (!end.refused ==> status.pinned == Some(end.served.issuer))
        && (status.ready <==> good && !end.refused)
    }

    /** What was pinned, and what was written, comes from spec, pin, existing Certificate or flags. */
    twostate predicate Follows(end: End, spec: Spec, existing: Option<CertObject>, flags: IssuerRef)
      reads this
    {
      && (end.Done? || end.Blocked? ==>
            && status.pinned.Some? && written <= old(written) + [status.pinned.value]
            && ComesFrom(status.pinned.value, spec.issuer, old(status.pinned), IssuerOf(existing), flags))
      && (written != old(written) ==>
            && |written| == |old(written)| + 1
            && ComesFrom(written[|old(written)|], spec.issuer, old(status.pinned), IssuerOf(existing), flags))
      && (end.NoIssuer? ==>
            flags.name == "" && !Named(spec.issuer) && !Named(old(status.pinned)) && !Named(IssuerOf(existing)))
    }

    /** Everything after the Certificate was read. */
    method Settle(existing: Option<CertObject>, spec: Spec, flags: IssuerRef, good: bool) returns (end: End)
      requires Valid() && existing == api.state.certificate && (Named(spec.issuer) ==> explicit)
      modifies this`status, this`faults, this`written, this`names, api
      ensures Valid() && GuardsName() && Reports(end, spec, good) && Follows(end, spec, existing, flags)
      ensures end.NoIssuer? || end.Blocked? ==> !status.ready && names == old(names)
      ensures end.Blocked? ==> Taken(api.state, if spec.secretName != "" then spec.secretName else api.state.crName + "-tls")
      ensures old(Undisturbed()) ==> !end.Stopped? && Undisturbed()
    {
      hide Remembered, Repeats, Resolve, Normalize, Undisturbed, Taken, ComesFrom, Guarded, SecretNameFor;
      WantedName(api.state.crName, spec);
      ResolvesTo(spec.issuer, status.pinned, IssuerOf(existing), flags);
      var resolved := Resolve(spec.issuer, status.pinned, IssuerOf(existing), flags);
      if resolved.None? {
        var err := PatchStatus(status.(ready := false));
        return if err.Some? then Stopped else NoIssuer;
      }
      if !explicit {
        SpecUnset(spec.issuer, status.pinned, IssuerOf(existing), flags);
        NextWriteRepeats(written, status.pinned, existing, flags);
      }
      end := Serve(existing, SecretNameFor(api.state.crName, spec), resolved.value.0, good);
    }

    /** Steps 1 to 4, and the verdict at the end. issued and uploaded are what the rest of the round finds. */
    method Reconcile(spec: Spec, flags: IssuerRef, issued: bool, uploaded: bool) returns (end: End)
      requires Valid()
      modifies this, api
      ensures Valid() && GuardsName() && Reports(end, spec, issued && uploaded)
      ensures explicit <==> old(explicit) || Named(spec.issuer)
      ensures Follows(end, spec, old(api.Ahead()).certificate, flags)
      ensures end.NoIssuer? || end.Blocked? ==> !status.ready && names == old(names)
      ensures end.Blocked? ==> Taken(api.state, if spec.secretName != "" then spec.secretName else api.state.crName + "-tls")
      ensures old(Undisturbed()) ==> !end.Stopped? && Undisturbed()
    {
      hide Remembered, Repeats, Undisturbed, Taken, ComesFrom, Guarded, Reports;
      explicit := explicit || Named(spec.issuer);
      var existing, err := ReadCertificate();
      if err.Some? {
        StoppedReports(spec, issued && uploaded);
        return Stopped;
      }
      end := Settle(existing, spec, flags, issued && uploaded);
    }

    lemma StoppedReports(spec: Spec, good: bool)
      ensures Reports(Stopped, spec, good)
    {
    }
  }

  datatype Event =
    | Round(spec: Spec, flags: IssuerRef, issued: bool, uploaded: bool)
    | Touch(certificate: Option<CertObject>)

  /** One of the first n rounds found an issuer named in the spec. */
  predicate SomeNamed(events: seq<Event>, n: nat)
    requires n <= |events|
  {
    exists i :: 0 <= i < n && events[i].Round? && Named(events[i].spec.issuer)
  }

  /** Any number of rounds, each possibly cut short after any of its calls, under flags that change from
      one start of the operator to the next, with others editing or deleting the Certificate once its
      issuer is pinned: while no spec names an issuer, only one is ever written; and the controller never
      turns the Certificate to a Secret that is somebody else's. */
  method Operate(front: Front, events: seq<Event>)
    requires front.Valid()
    modifies front, front.api
    ensures front.Valid() && old(front.written) <= front.written && front.api.deletions == old(front.api.deletions)
    ensures !front.explicit ==> forall i, j :: 0 <= i < j < |front.written| ==> front.written[i] == front.written[j]
    ensures front.explicit <==> old(front.explicit) || SomeNamed(events, |events|)
    ensures front.api.state.crName == old(front.api.state.crName) && old(front.names) <= front.names
    ensures forall i :: |old(front.names)| <= i < |front.names| ==> Guarded(front.names[i], front.api.state.crName)
  {
    hide Guarded;
    for n := 0 to |events|
      invariant front.Valid() && old(front.written) <= front.written && front.api.deletions == old(front.api.deletions)
      invariant front.explicit <==> old(front.explicit) || SomeNamed(events, n)
      invariant front.api.state.crName == old(front.api.state.crName) && old(front.names) <= front.names
      invariant forall i :: |old(front.names)| <= i < |front.names| ==> Guarded(front.names[i], front.api.state.crName)
    {
      match events[n] {
        case Round(spec, flags, issued, uploaded) =>
          var _ := front.Reconcile(spec, flags, issued, uploaded);
        case Touch(c) =>
          if Named(front.status.pinned) && (c.Some? ==> c.value.secretName != "") { front.Interfere(c); }
      }
    }
  }

  lemma CertificateAhead(o: Objects, moves: seq<ObjectMove>)
    ensures AllStirred(o, moves).certificate == o.certificate ||
            (AllStirred(o, moves).certificate.None? && o.certificate.Some? && o.certificate.value.deleting)
  {
    if o.certificate.Some? && o.certificate.value.deleting {
      VanishesAtMost(o, moves);
    } else {
      CertificateKept(o, moves);
    }
  }

  lemma {:induction false} VanishesAtMost(o: Objects, moves: seq<ObjectMove>)
    ensures AllStirred(o, moves).certificate == o.certificate || AllStirred(o, moves).certificate.None?
    decreases moves
  {
    if moves != [] { VanishesAtMost(Stirred(o, moves[0]), moves[1..]); }
  }
}
