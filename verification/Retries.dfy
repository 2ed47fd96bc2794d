/**
 The upload a write-ahead record announces, attempted any number of times. Each attempt is one
 upload call and, if the cloud answers that the name is taken, one look-up by name; either call
 may fail, lose its answer or kill the process, and others may edit the store around both.
 */
module Retries {
  import opened Wrappers
  import opened Cas

  datatype Attempt = Attempt(upload: Turn, find: Turn, now: int)

  /** The keyword of the look-up: the first name of the very certificate that was uploaded. */
  function FindHint(domains: seq<string>): string {
    if domains == [] then "" else domains[0]
  }

  predicate Findable(s: CasState, name: string, hint: string, now: int, id: int) {
    id in s.certs && s.certs[id].name == name && Listed(s.certs[id], hint, now)
  }

  /** What filtering the listing by name yields. */
  ghost function Claimed(s: CasState, name: string, hint: string, now: int): Option<int> {
    if exists id :: Findable(s, name, hint, now, id)
    then var id :| Findable(s, name, hint, now, id); Some(id)
    else None
  }

  /** The upload has been refused because its name exists. */
  predicate Refused(e: Error) {
    ClassOf(e) == Permanent && IsDuplicateName(e)
  }

  /** The look-up is only as good as its own call; its failure leaves the upload's error standing. */
  ghost function LookedUp(s: CasState, find: Turn, cert: Cert, now: int, e: Error): (CasState, Result<int, Error>) {
    var t := AllEdited(s, find.edits);
    var found := Claimed(t, cert.name, FindHint(cert.domains), now);
    (t, if Failed(find.fault) == Some(Crash) then Err(Crash)
        else if find.fault.Healthy? && found.Some? then Ok(found.value)
        else Err(e))
  }

  ghost function Attempted(s: CasState, a: Attempt, cert: Cert): (CasState, Result<int, Error>) {
    var u := Uploaded(AllEdited(s, a.upload.edits), a.upload, cert);
    if u.2.None? then (u.0, Ok(u.1))
    else if Refused(u.2.value) then LookedUp(u.0, a.find, cert, a.now, u.2.value)
    else (u.0, Err(u.2.value))
  }

  ghost function After(s: CasState, attempts: seq<Attempt>, cert: Cert, n: nat): CasState
    requires n <= |attempts|
  {
    if n == 0 then s else Attempted(After(s, attempts, cert, n - 1), attempts[n - 1], cert).0
  }

  ghost function Answer(s: CasState, attempts: seq<Attempt>, cert: Cert, n: nat): Result<int, Error>
    requires n < |attempts|
  {
    Attempted(After(s, attempts, cert, n), attempts[n], cert).1
  }

  /** If the token is known, it belongs to a certificate of the announced name. */
  predicate TokenNames(s: CasState, cert: Cert) {
    cert.token in s.byToken ==> s.byToken[cert.token] in s.certs && s.certs[s.byToken[cert.token]].name == cert.name
  }

  predicate OnlyBearer(s: CasState, name: string, id: int) {
    id in s.certs && s.certs[id].name == name &&
    forall j :: j in s.certs && s.certs[j].name == name ==> j == id
  }

  /** Every certificate of this name is one the listing for this keyword shows. */
  predicate Unobstructed(certs: map<int, Cert>, name: string, hint: string, now: int) {
    forall id :: id in certs && certs[id].name == name ==> Listed(certs[id], hint, now)
  }

  /** An attempt in which no call fails and nobody interferes succeeds if nothing hides under the name. */
  lemma CalmAttemptSucceeds(s: CasState, a: Attempt, cert: Cert)
    requires Calm([a.upload, a.find]) && Unobstructed(s.certs, cert.name, FindHint(cert.domains), a.now)
    ensures Attempted(s, a, cert).1.Ok?
  {
    hide Listed;
    CalmReaches(s, [a.upload, a.find]);
    assert [a.upload, a.find][1].fault.Healthy? && [a.upload, a.find][1].edits == [];
    var u := Uploaded(s, a.upload, cert);
    if u.2.Some? {
      assert u.0 == s && Refused(u.2.value);
      var id :| id in s.certs && s.certs[id].name == cert.name;
      assert Findable(s, cert.name, FindHint(cert.domains), a.now, id);
    }
  }

  /** The look-up is made only for the codes that say that the name is taken; any other error stands. */
  lemma OnlyTakenNamesAreLookedUp(s: CasState, a: Attempt, cert: Cert)
    ensures var u := Uploaded(AllEdited(s, a.upload.edits), a.upload, cert);
            u.2.Some? ==>
              var e := u.2.value;
              if e.Cloud? && e.kind == Permanent &&
                 e.code in {"NameRepeat", "CertNameDuplicated", "DuplicateCertificateName", "CertNameExisted"}
              then Attempted(s, a, cert) == LookedUp(u.0, a.find, cert, a.now, e)
              else Attempted(s, a, cert) == (u.0, Err(e))
  {
    hide LookedUp, Uploaded;
  }

  // ----- whatever happens -----

  lemma TokenSurvives(s: CasState, t: CasState, cert: Cert)
    requires Consistent(t) && External(s, t) && TokenNames(s, cert)
    ensures TokenNames(t, cert)
  {
  }

  lemma UploadSound(s: CasState, t: Turn, cert: Cert)
    requires Consistent(s) && TokenNames(s, cert)
    ensures var u := Uploaded(s, t, cert);
            Consistent(u.0) && TokenNames(u.0, cert) && (u.2.None? ==> OnlyBearer(u.0, cert.name, u.1))
  {
    UploadConsistent(s, t, cert);
  }

  lemma EditsSound(s: CasState, edits: seq<Edit>, cert: Cert)
    requires Consistent(s) && TokenNames(s, cert)
    ensures Consistent(AllEdited(s, edits)) && TokenNames(AllEdited(s, edits), cert)
  {
    AllEditsExternal(s, edits);
    TokenSurvives(s, AllEdited(s, edits), cert);
  }

  lemma FoundIsOnly(s: CasState, name: string, hint: string, now: int)
    requires Consistent(s)
    ensures var found := Claimed(s, name, hint, now); found.Some? ==> OnlyBearer(s, name, found.value)
  {
  }

  lemma AttemptSound(s: CasState, a: Attempt, cert: Cert)
    requires Consistent(s) && TokenNames(s, cert)
    ensures var (t, r) := Attempted(s, a, cert);
            Consistent(t) && TokenNames(t, cert) && (r.Ok? ==> OnlyBearer(t, cert.name, r.value))
  {
    var s0 := AllEdited(s, a.upload.edits);
    EditsSound(s, a.upload.edits, cert);
    UploadSound(s0, a.upload, cert);
    var u := Uploaded(s0, a.upload, cert);
    EditsSound(u.0, a.find.edits, cert);
    FoundIsOnly(AllEdited(u.0, a.find.edits), cert.name, FindHint(cert.domains), a.now);
  }

  /** From any state a write-ahead record was made in, whatever failed and whoever interfered: the
      attempt that succeeds leaves exactly one certificate under the announced name, and the id it
      returns is that certificate's. */
  lemma {:induction false} RetryConvergence(s: CasState, attempts: seq<Attempt>, cert: Cert, n: nat)
    requires Consistent(s) && TokenNames(s, cert) && n < |attempts|
    requires Answer(s, attempts, cert, n).Ok?
    ensures OnlyBearer(After(s, attempts, cert, n + 1), cert.name, Answer(s, attempts, cert, n).value)
  {
    StaysSound(s, attempts, cert, n);
    AttemptSound(After(s, attempts, cert, n), attempts[n], cert);
  }

  lemma {:induction false} StaysSound(s: CasState, attempts: seq<Attempt>, cert: Cert, n: nat)
    requires Consistent(s) && TokenNames(s, cert) && n <= |attempts|
    ensures Consistent(After(s, attempts, cert, n)) && TokenNames(After(s, attempts, cert, n), cert)
  {
    if n > 0 {
      StaysSound(s, attempts, cert, n - 1);
      AttemptSound(After(s, attempts, cert, n - 1), attempts[n - 1], cert);
    }
  }

  // ----- when others leave the name alone -----

  function Bearers(s: CasState, name: string): set<int> {
    set id | id in s.certs && s.certs[id].name == name
  }

  /** None of the edits adds or removes a certificate of this name. */
  predicate LeavesAlone(s: CasState, edits: seq<Edit>, name: string)
    decreases edits
  {
    edits == [] ||
    (Bearers(Edited(s, edits[0]), name) == Bearers(s, name) && LeavesAlone(Edited(s, edits[0]), edits[1..], name))
  }

  ghost predicate Undisturbed(s: CasState, a: Attempt, cert: Cert) {
    && LeavesAlone(s, a.upload.edits, cert.name)
    && LeavesAlone(Uploaded(AllEdited(s, a.upload.edits), a.upload, cert).0, a.find.edits, cert.name)
  }

  lemma {:induction false} AloneKeepsBearers(s: CasState, edits: seq<Edit>, name: string)
    requires Consistent(s) && LeavesAlone(s, edits, name)
    ensures Bearers(AllEdited(s, edits), name) == Bearers(s, name)
    decreases edits
  {
    if edits != [] {
      EditIsExternal(s, edits[0]);
      AloneKeepsBearers(Edited(s, edits[0]), edits[1..], name);
    }
  }

  /** Nothing of this name is stored, or the material is, under one id. */
  predicate StoredAt(s: CasState, cert: Cert, id: Option<int>) {
    if id.None? then !NameTaken(s.certs, cert.name)
    else OnlyBearer(s, cert.name, id.value) && s.certs[id.value] == cert
  }

  lemma EditsKeepStored(s: CasState, edits: seq<Edit>, cert: Cert, id: Option<int>)
    requires Consistent(s) && LeavesAlone(s, edits, cert.name) && StoredAt(s, cert, id)
    ensures Consistent(AllEdited(s, edits)) && StoredAt(AllEdited(s, edits), cert, id)
  {
    AllEditsExternal(s, edits);
    AloneKeepsBearers(s, edits, cert.name);
    var t := AllEdited(s, edits);
    if id.Some? { assert id.value in Bearers(t, cert.name); }
    forall i | i in t.certs && t.certs[i].name == cert.name ensures i in s.certs && s.certs[i].name == cert.name {
      assert i in Bearers(t, cert.name);
    }
  }

  lemma UploadStores(s: CasState, t: Turn, cert: Cert, id: Option<int>)
    requires Consistent(s) && StoredAt(s, cert, id)
    ensures var u := Uploaded(s, t, cert);
            StoredAt(u.0, cert, id) || (id.None? && StoredAt(u.0, cert, Some(s.nextID + 1)))
  {
  }

  lemma AttemptStores(s: CasState, a: Attempt, cert: Cert, id: Option<int>) returns (id': Option<int>)
    requires Consistent(s) && TokenNames(s, cert) && Undisturbed(s, a, cert) && StoredAt(s, cert, id)
    ensures var (t, r) := Attempted(s, a, cert); StoredAt(t, cert, id') && (r.Ok? ==> id' == Some(r.value))
    ensures id.Some? ==> id' == id
  {
    var s0 := AllEdited(s, a.upload.edits);
    EditsKeepStored(s, a.upload.edits, cert, id);
    UploadStores(s0, a.upload, cert, id);
    var u := Uploaded(s0, a.upload, cert);
    id' := if StoredAt(u.0, cert, id) then id else Some(s0.nextID + 1);
    UploadConsistent(s0, a.upload, cert);
    EditsKeepStored(u.0, a.find.edits, cert, id');
    AttemptSound(s, a, cert);
    var (t, r) := Attempted(s, a, cert);
  }

  /** However often the answer got lost and whether the cloud honours the token or not, the material
      is stored at most once, and every success, early or late, names the id it is stored under. */
  lemma {:induction false} UploadedOnce(s: CasState, attempts: seq<Attempt>, cert: Cert, n: nat) returns (id: Option<int>)
    requires Consistent(s) && TokenNames(s, cert) && StoredAt(s, cert, None) && n <= |attempts|
    requires forall i :: 0 <= i < n ==> UndisturbedAt(s, attempts, cert, i)
    ensures StoredAt(After(s, attempts, cert, n), cert, id)
    ensures forall i :: 0 <= i < n ==> Names(s, attempts, cert, i, id)
  {
    if n == 0 { return None; }
    var before := UploadedOnce(s, attempts, cert, n - 1);
    id := OneMoreAttempt(s, attempts, cert, n - 1, before);
    forall i | 0 <= i < n ensures Names(s, attempts, cert, i, id) {
      if i < n - 1 { assert Names(s, attempts, cert, i, before); }
    }
  }

  /** If attempt i succeeded, it did so with this id. */
  ghost predicate Names(s: CasState, attempts: seq<Attempt>, cert: Cert, i: nat, id: Option<int>)
    requires i < |attempts|
  {
    Answer(s, attempts, cert, i).Ok? ==> id == Some(Answer(s, attempts, cert, i).value)
  }

  ghost predicate UndisturbedAt(s: CasState, attempts: seq<Attempt>, cert: Cert, i: nat)
    requires i < |attempts|
  {
    Undisturbed(After(s, attempts, cert, i), attempts[i], cert)
  }

  lemma OneMoreAttempt(s: CasState, attempts: seq<Attempt>, cert: Cert, n: nat, before: Option<int>) returns (id: Option<int>)
    requires Consistent(s) && TokenNames(s, cert) && n < |attempts|
    requires UndisturbedAt(s, attempts, cert, n)
    requires StoredAt(After(s, attempts, cert, n), cert, before)
    ensures StoredAt(After(s, attempts, cert, n + 1), cert, id) && Names(s, attempts, cert, n, id)
    ensures before.Some? ==> id == before
  {
    StaysSound(s, attempts, cert, n);
    id := AttemptStores(After(s, attempts, cert, n), attempts[n], cert, before);
  }

  // ----- and the retry does succeed -----

  lemma SubstringOfItself(s: string)
    ensures Substring(s, s)
  {
    assert OccursAt(s, s, 0);
  }

  /** A certificate is found under its own first name exactly as long as it has not expired. */
  lemma FoundByOwnName(c: Cert, now: int)
    ensures Listed(c, FindHint(c.domains), now) <==> now <= c.notAfter
  {
    if c.domains != [] { SubstringOfItself(c.domains[0]); }
  }

  /** An attempt whose calls go through, after a committed upload whose answers were all lost: it
      succeeds exactly when the cloud still honours the token or the certificate is unexpired. */
  lemma UndisturbedRetrySucceeds(s: CasState, a: Attempt, cert: Cert, id: int)
    requires Consistent(s) && TokenNames(s, cert)
    requires StoredAt(s, cert, Some(id))
    requires a.upload.edits == [] && a.upload.fault.Healthy? && a.find.edits == [] && a.find.fault.Healthy?
    ensures Attempted(s, a, cert).1.Ok? <==>
            (a.upload.honoursToken && cert.token in s.byToken && cert.token != "") || a.now <= cert.notAfter
    ensures Attempted(s, a, cert).1.Ok? ==> Attempted(s, a, cert).1.value == id
  {
    AttemptSound(s, a, cert);
    FoundByOwnName(cert, a.now);
    if a.now <= cert.notAfter { assert Findable(s, cert.name, FindHint(cert.domains), a.now, id); }
  }
}
