/**
 The status subresource is written with JSON merge patches (section 2 of RFC 7396). Every
 patch is computed against an in-memory baseline and applied to whatever the API server
 holds at that moment; this module says exactly when the outcome is the intended document.
 */
module Json {
  import opened Wrappers

  /** Member names: the ones the model reads back, and all others. */
  datatype Key =
    | Current | History | Pending | CasProbedAt | SecretName | CleanupStartedAt
    | Fingerprint | CertId | CasName | NotBefore | NotAfter | UploadedAt
    | ClientToken | StartedAt | DomainHint
    | Other(name: string)

  datatype Json =
    | JNull
    | JNum(n: int)
    | JStr(s: string)
    | JArr(items: seq<Json>)
    | JObj(fields: map<Key, Json>)

  /** The members of an object; anything that is not an object counts as an empty one. */
  function Fields(j: Json): map<Key, Json> {
    if j.JObj? then j.fields else map[]
  }

  /** Member k of j, null when there is none. */
  function At(j: Json, k: Key): Json {
    if k in Fields(j) then Fields(j)[k] else JNull
  }

  function Lookup(j: Json, k: Key): Option<Json> {
    if k in Fields(j) then Some(Fields(j)[k]) else None
  }

  /** Section 2 of RFC 7396. */
  function MergePatch(target: Json, patch: Json): Json
    decreases patch
  {
    if !patch.JObj? then patch
    else
      JObj(map k | k in Fields(target).Keys + patch.fields.Keys && (k in patch.fields ==> !patch.fields[k].JNull?)
             :: if k in patch.fields then MergePatch(At(target, k), patch.fields[k]) else At(target, k))
  }

  /** The merge patch that client.MergeFrom(orig) sends for modified: changed members only,
      null for a removed one, nested objects diffed member by member, arrays whole. */
  function Diff(orig: Json, modified: Json): Json
    decreases modified
  {
    if !modified.JObj? then modified
    else
      JObj(map k | k in Fields(orig).Keys + modified.fields.Keys && Lookup(orig, k) != Lookup(modified, k)
             :: if k !in modified.fields then JNull
                else if At(orig, k).JObj? && modified.fields[k].JObj? then Diff(At(orig, k), modified.fields[k])
                else modified.fields[k])
  }

  /** No member of any (nested) object is null: a serialised status omits absent fields. */
  predicate NullFree(j: Json) {
    !j.JNull? && (j.JObj? ==> forall k :: k in j.fields ==> NullFree(j.fields[k]))
  }

  /** The server document follows the baseline closely enough for the patch to land exactly:
      wherever the patch stays silent the server must already agree with modified, and where
      it descends into (or inserts) an object, the server's object must follow in turn. */
  ghost predicate Tracks(server: Json, orig: Json, modified: Json)
    decreases modified
  {
    modified.JObj? ==> forall k :: TracksAt(server, orig, modified, k)
  }

  ghost predicate TracksAt(server: Json, orig: Json, modified: Json, k: Key)
    requires modified.JObj?
    decreases modified, 0
  {
    if Lookup(orig, k) == Lookup(modified, k) then Lookup(server, k) == Lookup(modified, k)
    else k in modified.fields ==> Tracks(At(server, k), At(orig, k), modified.fields[k])
  }

  /** Against something that is not an object, the patch is the document itself. */
  lemma DiffFromNothing(orig: Json, modified: Json)
    requires !orig.JObj?
    ensures Diff(orig, modified) == modified
  {
  }

  lemma DiffMember(orig: Json, modified: Json, k: Key)
    requires modified.JObj?
    ensures Lookup(Diff(orig, modified), k) ==
            if Lookup(orig, k) == Lookup(modified, k) then None
            else if k !in modified.fields then Some(JNull)
            else Some(Diff(At(orig, k), modified.fields[k]))
  {
    if k in modified.fields && !At(orig, k).JObj? { DiffFromNothing(At(orig, k), modified.fields[k]); }
  }

  lemma MergeMember(target: Json, patch: Json, k: Key)
    requires patch.JObj?
    ensures Lookup(MergePatch(target, patch), k) ==
            if k !in patch.fields then Lookup(target, k)
            else if patch.fields[k].JNull? then None
            else Some(MergePatch(At(target, k), patch.fields[k]))
  {
  }

  /** One member of the patched document. */
  lemma PatchedMember(server: Json, orig: Json, modified: Json, k: Key)
    requires modified.JObj? && (k in modified.fields ==> !modified.fields[k].JNull?)
    ensures Lookup(MergePatch(server, Diff(orig, modified)), k) ==
            if Lookup(orig, k) == Lookup(modified, k) then Lookup(server, k)
            else if k !in modified.fields then None
            else Some(MergePatch(At(server, k), Diff(At(orig, k), modified.fields[k])))
  {
    DiffMember(orig, modified, k);
    MergeMember(server, Diff(orig, modified), k);
  }

  /** The patch produces the intended document exactly when the server tracks the baseline. */
  lemma {:induction false} PatchExact(server: Json, orig: Json, modified: Json)
    requires modified.JObj? && NullFree(modified)
    ensures MergePatch(server, Diff(orig, modified)) == modified <==> Tracks(server, orig, modified)
    decreases modified
  {
    var r := MergePatch(server, Diff(orig, modified));
    forall k ensures Lookup(r, k) == Lookup(modified, k) <==> TracksAt(server, orig, modified, k) {
      PatchedMember(server, orig, modified, k);
      if k in modified.fields && modified.fields[k].JObj? {
        PatchExact(At(server, k), At(orig, k), modified.fields[k]);
      }
    }
    if forall k :: Lookup(r, k) == Lookup(modified, k) { SameLookups(r, modified); }
  }

  lemma SameLookups(a: Json, b: Json)
    requires a.JObj? && b.JObj?
    requires forall k :: Lookup(a, k) == Lookup(b, k)
    ensures a == b
  {
    forall k ensures k in a.fields <==> k in b.fields { assert Lookup(a, k) == Lookup(b, k); }
    forall k | k in a.fields ensures a.fields[k] == b.fields[k] { assert Lookup(a, k) == Lookup(b, k); }
  }

  /** A baseline equal to what the server holds is always good enough. */
  lemma {:induction false} TracksItself(doc: Json, modified: Json)
    ensures Tracks(doc, doc, modified)
    decreases modified
  {
    if modified.JObj? {
      forall k ensures TracksAt(doc, doc, modified, k) {
        if k in modified.fields { TracksItself(At(doc, k), modified.fields[k]); }
      }
    }
  }

  /** However stale the rest of the baseline is, a member on which server and baseline agree
      ends up exactly as intended. */
  lemma PatchedMemberExact(server: Json, orig: Json, modified: Json, k: Key)
    requires modified.JObj? && NullFree(modified)
    requires Lookup(server, k) == Lookup(orig, k)
    ensures Lookup(MergePatch(server, Diff(orig, modified)), k) == Lookup(modified, k)
  {
    PatchedMember(server, orig, modified, k);
    if k in modified.fields && modified.fields[k].JObj? {
      TracksItself(At(orig, k), modified.fields[k]);
      PatchExact(At(server, k), At(orig, k), modified.fields[k]);
    }
  }

  /** A patch never leaves a null behind. */
  lemma {:induction false} PatchedNullFree(target: Json, patch: Json)
    requires target.JNull? || NullFree(target)
    requires !patch.JNull?
    ensures NullFree(MergePatch(target, patch))
    decreases patch
  {
    if patch.JObj? {
      var r := MergePatch(target, patch);
      forall k | k in r.fields ensures NullFree(r.fields[k]) {
        MergeMember(target, patch, k);
        if k in patch.fields { PatchedNullFree(At(target, k), patch.fields[k]); }
      }
    }
  }
}
