/**
 The cert-manager Certificate of one AliyunCertificate and the Secrets of its namespace, with
 cert-manager as an adversary: as long as the Certificate object exists, it may write the Secret
 the Certificate names at any moment.
 */
module ClusterObjects {
  import opened Wrappers
  import opened Cas

  datatype IssuerRef = IssuerRef(name: string, kind: string, group: string)

  datatype CertObject = CertObject(secretName: string, issuer: IssuerRef, deleting: bool)

  /** secrets maps a Secret's name to its cert-manager.io/certificate-name annotation, "" if it has none. */
  datatype Objects = Objects(crName: string, certificate: Option<CertObject>, secrets: map<string, string>)

  datatype ObjectMove =
    | Reissue
    | Finalized
    | OtherWrites(name: string, annotation: string)
    | SecretRemoved(name: string)

  datatype ObjectTurn = ObjectTurn(moves: seq<ObjectMove>, fault: Fault)

  /** Others never claim to be this Certificate, and nobody but the controller creates it. */
  function Stirred(o: Objects, m: ObjectMove): Objects {
    match m
    case Reissue =>
      if o.certificate.None? then o else o.(secrets := o.secrets[o.certificate.value.secretName := o.crName])
    case Finalized =>
      if o.certificate.Some? && o.certificate.value.deleting then o.(certificate := None) else o
    case OtherWrites(name, annotation) =>
      if annotation == o.crName then o else o.(secrets := o.secrets[name := annotation])
    case SecretRemoved(name) => o.(secrets := o.secrets - {name})
  }

  function AllStirred(o: Objects, moves: seq<ObjectMove>): Objects
    decreases moves
  {
    if moves == [] then o else AllStirred(Stirred(o, moves[0]), moves[1..])
  }

  function Marked(o: Objects): Objects {
    if o.certificate.None? then o else o.(certificate := Some(o.certificate.value.(deleting := true)))
  }

  predicate Ours(o: Objects, name: string) {
    name in o.secrets && o.secrets[name] == o.crName
  }

  /** The Certificate is gone and no Secret of this name is ours. */
  predicate Clear(o: Objects, name: string) {
    o.certificate.None? && !Ours(o, name)
  }

  /** Once clear, clear for good: with its Certificate gone, cert-manager cannot bring the Secret back. */
  lemma {:induction false} StaysClear(o: Objects, moves: seq<ObjectMove>, name: string)
    requires Clear(o, name)
    ensures Clear(AllStirred(o, moves), name)
    decreases moves
  {
    if moves != [] { StaysClear(Stirred(o, moves[0]), moves[1..], name); }
  }

  /** The reason the Certificate goes first: while it exists, the Secret can return at once. */
  lemma ExistingCertificateBringsSecretBack(o: Objects)
    requires o.certificate.Some?
    ensures var name := o.certificate.value.secretName;
            Ours(AllStirred(o.(secrets := o.secrets - {name}), [Reissue]), name)
  {
    var name := o.certificate.value.secretName;
    var p := o.(secrets := o.secrets - {name});
    assert AllStirred(p, [Reissue]) == AllStirred(Stirred(p, Reissue), []);
  }

  lemma {:induction false} NameKept(o: Objects, moves: seq<ObjectMove>)
    ensures AllStirred(o, moves).crName == o.crName
    decreases moves
  {
    if moves != [] { NameKept(Stirred(o, moves[0]), moves[1..]); }
  }

  lemma {:induction false} CertificateKept(o: Objects, moves: seq<ObjectMove>)
    requires o.certificate.Some? ==> !o.certificate.value.deleting
    ensures AllStirred(o, moves).certificate == o.certificate
    decreases moves
  {
    if moves != [] { CertificateKept(Stirred(o, moves[0]), moves[1..]); }
  }

  /** A Secret the controller has deleted, and whose it was at that moment. */
  datatype SecretDeletion = SecretDeletion(name: string, annotation: string)

  class Api {
    var state: Objects
    var turns: seq<ObjectTurn>
    ghost var deletions: seq<SecretDeletion>

    constructor (crName: string, secrets: map<string, string>, turns: seq<ObjectTurn>)
      ensures state == Objects(crName, None, secrets) && this.turns == turns && deletions == []
    {
      state, this.turns, deletions := Objects(crName, None, secrets), turns, [];
    }

    /** No Secret was deleted but, at most, this one, and only while it was ours. */
    twostate predicate OnlyOurs(name: string)
      reads this
    {
      && state.crName == old(state.crName) && old(deletions) <= deletions
      && forall i :: |old(deletions)| <= i < |deletions| ==> deletions[i] == SecretDeletion(name, state.crName)
    }

    /** No call to come fails. */
    predicate Obliging()
      reads `turns
    {
      forall i :: 0 <= i < |turns| ==> turns[i].fault.Healthy?
    }

    /** What the next call meets. */
    function Due(): Fault
      reads `turns
    {
      if turns == [] then Healthy else turns[0].fault
    }

    /** What the next call finds. */
    function Ahead(): Objects
      reads this
    {
      AllStirred(state, if turns == [] then [] else turns[0].moves)
    }

    method Elapse() returns (fault: Fault)
      modifies this
      ensures state == old(Ahead()) && state.crName == old(state.crName) && deletions == old(deletions)
      ensures old(Obliging()) ==> fault.Healthy? && Obliging()
      ensures fault == old(Due())
    {
      var moves := if turns == [] then [] else turns[0].moves;
      fault := if turns == [] then Healthy else turns[0].fault;
      turns := if turns == [] then [] else turns[1..];
      ghost var start := state;
      NameKept(state, moves);
      var i := 0;
      while i < |moves|
        invariant 0 <= i <= |moves| && AllStirred(state, moves[i..]) == AllStirred(start, moves)
        invariant deletions == old(deletions) && turns == if old(turns) == [] then [] else old(turns)[1..]
      {
        state := Stirred(state, moves[i]);
        assert moves[i..][1..] == moves[i + 1..];
        i := i + 1;
      }
    }

    method GetCertificate() returns (c: Option<CertObject>, err: Option<Error>)
      modifies this
      ensures state == old(Ahead()) && state.crName == old(state.crName) && deletions == old(deletions)
      ensures err.None? ==> c == state.certificate
      ensures old(Obliging()) ==> err.None? && Obliging()
      ensures err == Failed(old(Due()))
    {
      var fault := Elapse();
      c, err := state.certificate, Failed(fault);
    }

    /** The Certificate is marked, and vanishes when its own finalizers are done. */
    method DeleteCertificate() returns (err: Option<Error>)
      modifies this
      ensures state.crName == old(state.crName) && deletions == old(deletions)
      ensures state == old(Ahead()) || state == Marked(old(Ahead()))
      ensures err.None? ==> state == Marked(old(Ahead()))
      ensures old(Obliging()) ==> err.None? && Obliging()
      ensures err == Failed(old(Due())) && state == if old(Due()).FailFirst? then old(Ahead()) else Marked(old(Ahead()))
    {
      var fault := Elapse();
      if fault.FailFirst? { return Some(fault.e); }
      if state.certificate.Some? {
        state := state.(certificate := Some(state.certificate.value.(deleting := true)));
      }
      return Failed(fault);
    }

    method GetSecret(name: string) returns (annotation: Option<string>, err: Option<Error>)
      modifies this
      ensures state == old(Ahead()) && state.crName == old(state.crName) && deletions == old(deletions)
      ensures err.None? ==> annotation == if name in state.secrets then Some(state.secrets[name]) else None
      ensures old(Obliging()) ==> err.None? && Obliging()
      ensures err == Failed(old(Due()))
    {
      var fault := Elapse();
      annotation, err := if name in state.secrets then Some(state.secrets[name]) else None, Failed(fault);
    }

    /** Follows a Get as one step. Whatever goes is on record. */
    method DeleteSecret(name: string) returns (err: Option<Error>)
      modifies this`state, this`deletions
      ensures state == old(state) || state == old(state).(secrets := old(state).secrets - {name})
      ensures deletions == old(deletions) +
                if name in old(state).secrets && name !in state.secrets
                then [SecretDeletion(name, old(state).secrets[name])] else []
      ensures err.None? ==> name !in state.secrets
      ensures old(Obliging()) ==> err.None? && Obliging()
      ensures err == Failed(old(Due()))
      ensures state == if old(Due()).FailFirst? then old(state) else old(state).(secrets := old(state).secrets - {name})
    {
      var fault := if turns == [] then Healthy else turns[0].fault;
      if fault.FailFirst? { return Some(fault.e); }
      if name in state.secrets { deletions := deletions + [SecretDeletion(name, state.secrets[name])]; }
      state := state.(secrets := state.secrets - {name});
      return Failed(fault);
    }
  }
}
