/**
 The certificate store in the cloud (CAS). The class follows pkg/aliyun/fake/cas.go; a queue of
 turns plays the fake's error queues, its commit-then-lose switch, and whatever other users of the
 account do between two of our calls.
 */
module Cas {
  import opened Wrappers

  datatype ErrClass = Permanent | Retryable | Auth | NotFound

  /** Crash is the death of the process during a call: nothing of the round runs after it. */
  datatype Error = Cloud(kind: ErrClass, code: string) | Credentials | Api | Crash

  function ClassOf(e: Error): ErrClass {
    if e.Cloud? then e.kind else Permanent
  }

  predicate IsDuplicateName(e: Error) {
    e.Cloud? && (e.code == "NameRepeat" || e.code == "CertNameDuplicated" ||
                 e.code == "DuplicateCertificateName" || e.code == "CertNameExisted")
  }

  const DUPLICATE_NAME := Cloud(Permanent, "CertNameDuplicated")
  const CERT_NOT_EXIST := Cloud(NotFound, "CertNotExist")

  /** A stored certificate; the material is represented by its fingerprint. */
  datatype Cert = Cert(name: string, fingerprint: string, domains: seq<string>, notAfter: int, token: string)

  datatype Summary = Summary(certId: int, name: string)

  /** issued is never forgotten: every id that ever named a certificate, with its name. */
  datatype CasState = CasState(nextID: int, certs: map<int, Cert>, byToken: map<string, int>, issued: map<int, string>)

  datatype Edit = Drop(id: int) | Add(cert: Cert)

  datatype Fault = Healthy | FailFirst(e: Error) | CommitThenLose(e: Error)

  /** What one call meets: edits by others, then a fault; honoursToken is off for a cloud that has
      forgotten its token table. */
  datatype Turn = Turn(edits: seq<Edit>, fault: Fault, honoursToken: bool)

  const QUIET := Turn([], Healthy, true)

  function First(turns: seq<Turn>): Turn {
    if turns == [] then QUIET else turns[0]
  }

  /** No call fails, and nobody else edits the store. */
  predicate Calm(turns: seq<Turn>) {
    forall i :: 0 <= i < |turns| ==> turns[i].fault.Healthy? && turns[i].edits == []
  }

  /** NotFound answers are truthful: an injected failure never claims one. */
  predicate Truthful(t: Turn) {
    t.fault.Healthy? || ClassOf(t.fault.e) != NotFound
  }

  ghost predicate Consistent(s: CasState) {
    && (forall id :: id in s.certs ==> id in s.issued && s.issued[id] == s.certs[id].name)
    && (forall id :: id in s.issued ==> 0 < id <= s.nextID)
    && 0 < s.nextID
    && (forall i, j :: i in s.certs && j in s.certs && s.certs[i].name == s.certs[j].name ==> i == j)
    && (forall t :: t in s.byToken ==> s.byToken[t] in s.certs && s.certs[s.byToken[t]].token == t)
  }

  /** What other users of the account may have done between two states: ids are never reused, names
      never change, and they hold no tokens of ours. */
  ghost predicate External(s: CasState, t: CasState) {
    && s.nextID <= t.nextID
    && (forall id :: id in t.certs ==> if id in s.certs then t.certs[id] == s.certs[id] else id > s.nextID)
    && s.issued.Keys <= t.issued.Keys
    && (forall id :: id in s.issued ==> t.issued[id] == s.issued[id])
    && (forall id :: id in t.issued && id !in s.issued ==> id > s.nextID)
    && (forall k :: k in t.byToken ==> k in s.byToken && t.byToken[k] == s.byToken[k])
  }

  predicate NameTaken(certs: map<int, Cert>, name: string) {
    exists id :: id in certs && certs[id].name == name
  }

  function WithoutId(byToken: map<string, int>, id: int): map<string, int> {
    map t | t in byToken && byToken[t] != id :: byToken[t]
  }

  function Edited(s: CasState, e: Edit): CasState {
    match e
    case Drop(id) => s.(certs := s.certs - {id}, byToken := WithoutId(s.byToken, id))
    case Add(cert) => if NameTaken(s.certs, cert.name) then s else Committed(s, cert.(token := ""))
  }

  /** A new certificate under the next id. */
  function Committed(s: CasState, cert: Cert): CasState {
    var id := s.nextID + 1;
    s.(nextID := id, certs := s.certs[id := cert], issued := s.issued[id := cert.name],
       byToken := if cert.token == "" then s.byToken else s.byToken[cert.token := id])
  }

  function Failed(f: Fault): Option<Error> {
    if f.Healthy? then None else Some(f.e)
  }

  /** Upload, after the turn's edits: the new state, the id and the error. */
  function Uploaded(s: CasState, t: Turn, cert: Cert): (CasState, int, Option<Error>) {
    if t.fault.FailFirst? then (s, 0, Some(t.fault.e))
    else if t.honoursToken && cert.token in s.byToken && cert.token != "" then
      (s, if t.fault.Healthy? then s.byToken[cert.token] else 0, Failed(t.fault))
    else if NameTaken(s.certs, cert.name) then (s, 0, Some(DUPLICATE_NAME))
    else (Committed(s, cert), if t.fault.Healthy? then s.nextID + 1 else 0, Failed(t.fault))
  }

  /** Delete, after the turn's edits. */
  function Deleted(s: CasState, t: Turn, id: int): (CasState, Option<Error>) {
    if t.fault.FailFirst? then (s, Some(t.fault.e))
    else if id !in s.certs then (s, Some(CERT_NOT_EXIST))
    else (Edited(s, Drop(id)), Failed(t.fault))
  }

  predicate OccursAt(part: string, whole: string, i: int) {
    0 <= i && i + |part| <= |whole| && whole[i..i + |part|] == part
  }

  predicate Substring(part: string, whole: string) {
    exists i :: 0 <= i <= |whole| && OccursAt(part, whole, i)
  }

  /** The listing keyword matches any substring of any domain, with no wildcard expansion, and the
      listing omits expired certificates. */
  predicate Listed(c: Cert, hint: string, now: int) {
    now <= c.notAfter && (hint == "" || exists i :: 0 <= i < |c.domains| && Substring(hint, c.domains[i]))
  }

  /** The listing is complete and truthful. */
  ghost predicate IsListing(s: CasState, hint: string, now: int, list: seq<Summary>) {
    && (forall c :: c in list ==> c.certId in s.certs && s.certs[c.certId].name == c.name && Listed(s.certs[c.certId], hint, now))
    && (forall id :: id in s.certs && Listed(s.certs[id], hint, now) ==> Summary(id, s.certs[id].name) in list)
  }

  // ----- how the state evolves -----

  lemma ExternalReflexive(s: CasState)
    requires Consistent(s)
    ensures External(s, s)
  {
  }

  lemma ExternalTransitive(s: CasState, t: CasState, u: CasState)
    requires Consistent(s)
    requires External(s, t) && External(t, u)
    ensures External(s, u)
  {
  }

  lemma EditIsExternal(s: CasState, e: Edit)
    requires Consistent(s)
    ensures Consistent(Edited(s, e)) && External(s, Edited(s, e))
  {
  }

  lemma CommitConsistent(s: CasState, cert: Cert)
    requires Consistent(s) && !NameTaken(s.certs, cert.name)
    ensures Consistent(Committed(s, cert))
  {
  }

  function AllEdited(s: CasState, edits: seq<Edit>): CasState
    decreases edits
  {
    if edits == [] then s else AllEdited(Edited(s, edits[0]), edits[1..])
  }

  lemma {:induction false} AllEditsExternal(s: CasState, edits: seq<Edit>)
    requires Consistent(s)
    ensures Consistent(AllEdited(s, edits)) && External(s, AllEdited(s, edits))
    decreases edits
  {
    if edits == [] {
      ExternalReflexive(s);
    } else {
      EditIsExternal(s, edits[0]);
      AllEditsExternal(Edited(s, edits[0]), edits[1..]);
      ExternalTransitive(s, Edited(s, edits[0]), AllEdited(s, edits));
    }
  }

  lemma CalmReaches(s: CasState, turns: seq<Turn>)
    requires Calm(turns)
    ensures AllEdited(s, First(turns).edits) == s && First(turns).fault.Healthy?
  {
  }

  lemma UploadConsistent(s: CasState, t: Turn, cert: Cert)
    requires Consistent(s)
    ensures Consistent(Uploaded(s, t, cert).0)
  {
    if !NameTaken(s.certs, cert.name) { CommitConsistent(s, cert); }
  }

  lemma DeleteConsistent(s: CasState, t: Turn, id: int)
    requires Consistent(s)
    ensures Consistent(Deleted(s, t, id).0)
  {
    EditIsExternal(s, Drop(id));
  }

  /** Whatever a Delete did, no id was reused and no name changed. */
  lemma DeleteIsExternal(s: CasState, t: Turn, id: int)
    requires Consistent(s)
    ensures External(s, Deleted(AllEdited(s, t.edits), t, id).0)
  {
    var reached := AllEdited(s, t.edits);
    AllEditsExternal(s, t.edits);
    EditIsExternal(reached, Drop(id));
    ExternalTransitive(s, reached, Edited(reached, Drop(id)));
  }

  /** Success and NotFound both mean that the certificate is gone. */
  lemma DeleteConfirmed(s: CasState, t: Turn, id: int)
    requires Truthful(t)
    ensures var (after, err) := Deleted(s, t, id);
            err.None? || ClassOf(err.value) == NotFound ==> id !in after.certs
  {
  }

  class CAS {
    var nextID: int
    var certs: map<int, Cert>
    var byToken: map<string, int>
    ghost var issued: map<int, string>
    var turns: seq<Turn>

    ghost function View(): CasState
      reads this
    {
      CasState(nextID, certs, byToken, issued)
    }

    ghost predicate Valid()
      reads this
    {
      Consistent(View()) && forall i :: 0 <= i < |turns| ==> Truthful(turns[i])
    }

    function NextTurn(): Turn
      reads this
    {
      First(turns)
    }

    function Rest(): seq<Turn>
      reads this
    {
      if turns == [] then [] else turns[1..]
    }

    /** The state the next call finds when it reaches the service. */
    ghost function Reached(): CasState
      reads this
    {
      AllEdited(View(), NextTurn().edits)
    }

    constructor (turns: seq<Turn>)
      requires forall i :: 0 <= i < |turns| ==> Truthful(turns[i])
      ensures Valid() && View() == CasState(1000, map[], map[], map[]) && this.turns == turns
    {
      nextID, certs, byToken, issued := 1000, map[], map[], map[];
      this.turns := turns;
    }

    /** Takes the next turn and lets the others' edits happen. */
    method Arrive() returns (t: Turn)
      requires Valid()
      modifies this
      ensures Valid() && t == old(NextTurn()) && Truthful(t) && View() == old(Reached()) && turns == old(Rest())
    {
      t := NextTurn();
      if turns != [] { turns := turns[1..]; }
      ghost var start := View();
      var i := 0;
      while i < |t.edits|
        invariant 0 <= i <= |t.edits|
        invariant Consistent(View())
        invariant AllEdited(View(), t.edits[i..]) == AllEdited(start, t.edits)
        invariant turns == old(Rest())
      {
        EditIsExternal(View(), t.edits[i]);
        ghost var next := Edited(View(), t.edits[i]);
        match t.edits[i] {
          case Drop(id) =>
            certs := certs - {id};
            byToken := WithoutId(byToken, id);
          case Add(cert) =>
            var taken := NameInUse(cert.name);
            if !taken {
              nextID := nextID + 1;
              certs := certs[nextID := cert.(token := "")];
              issued := issued[nextID := cert.name];
            }
        }
        assert View() == next;
        assert t.edits[i..][1..] == t.edits[i + 1..];
        i := i + 1;
      }
    }

    /** Scans the stored certificates for a name. */
    method NameInUse(name: string) returns (taken: bool)
      requires Consistent(View())
      ensures taken == NameTaken(certs, name)
    {
      taken := false;
      for id := 0 to nextID + 1
        invariant taken == exists i :: i in certs && i < id && certs[i].name == name
      {
        if id in certs && certs[id].name == name { taken := true; }
      }
    }

    method Upload(cert: Cert) returns (id: int, err: Option<Error>)
      requires Valid()
      modifies this
      ensures Valid() && turns == old(Rest())
      ensures (View(), id, err) == Uploaded(old(Reached()), old(NextTurn()), cert)
    {
      var t := Arrive();
      UploadConsistent(View(), t, cert);
      if t.fault.FailFirst? { return 0, Some(t.fault.e); }
      if t.honoursToken && cert.token in byToken && cert.token != "" {
        if t.fault.CommitThenLose? { return 0, Some(t.fault.e); }
        return byToken[cert.token], None;
      }
      var taken := NameInUse(cert.name);
      if taken { return 0, Some(DUPLICATE_NAME); }
      nextID := nextID + 1;
      certs := certs[nextID := cert];
      issued := issued[nextID := cert.name];
      if cert.token != "" { byToken := byToken[cert.token := nextID]; }
      if t.fault.CommitThenLose? { return 0, Some(t.fault.e); }
      return nextID, None;
    }

    method Delete(id: int) returns (err: Option<Error>)
      requires Valid()
      modifies this
      ensures Valid() && turns == old(Rest())
      ensures (View(), err) == Deleted(old(Reached()), old(NextTurn()), id)
    {
      var t := Arrive();
      DeleteConsistent(View(), t, id);
      if t.fault.FailFirst? { return Some(t.fault.e); }
      if id !in certs { return Some(CERT_NOT_EXIST); }
      certs := certs - {id};
      // the idempotency mapping dies with the certificate
      byToken := WithoutId(byToken, id);
      if t.fault.CommitThenLose? { return Some(t.fault.e); }
      return None;
    }

    method FindUploaded(hint: string, now: int) returns (list: seq<Summary>, err: Option<Error>)
      requires Valid()
      modifies this
      ensures Valid() && View() == old(Reached()) && turns == old(Rest())
      ensures err == Failed(old(NextTurn()).fault)
      ensures err.None? ==> IsListing(View(), hint, now, list)
    {
      var t := Arrive();
      list, err := [], Failed(t.fault);
      if err.Some? { return; }
      for id := 0 to nextID + 1
        invariant forall c :: c in list ==>
                    c.certId in certs && certs[c.certId].name == c.name && Listed(certs[c.certId], hint, now)
        invariant forall i :: i in certs && i < id && Listed(certs[i], hint, now) ==>
                    Summary(i, certs[i].name) in list
      {
        if id in certs && Listed(certs[id], hint, now) { list := list + [Summary(id, certs[id].name)]; }
      }
    }
  }
}
