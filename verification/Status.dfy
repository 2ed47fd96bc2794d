/**
 The persisted status of an AliyunCertificate: the generation ledger, the two other fields the
 modelled code reads back, and everything else (conditions, mirrors) as opaque JSON members.
 */
module Status {
  import opened Wrappers
  import opened Json

  /** One uploaded (or observed) certificate. Times are whole seconds, as metav1.Time stores them. */
  datatype Generation = Generation(
    fingerprint: string,
    certId: Option<int>,
    casName: string,
    notBefore: int,
    notAfter: int,
    uploadedAt: int)

  /** The write-ahead record of an upload whose outcome is not yet known. */
  datatype PendingUpload = PendingUpload(
    fingerprint: string,
    casName: string,
    clientToken: string,
    startedAt: int,
    domainHint: string)

  /** The part that refreshUploadState re-reads: history[0] is the newest superseded generation. */
  datatype Ledger = Ledger(
    current: Option<Generation>,
    history: seq<Generation>,
    pending: Option<PendingUpload>,
    casProbedAt: Option<int>)

  datatype Status = Status(
    ledger: Ledger,
    secretName: string,
    cleanupStartedAt: Option<int>,
    rest: map<Key, Json>)

  const LEDGER_KEYS := {Key.Current, Key.History, Key.Pending, Key.CasProbedAt}
  const TYPED_KEYS := LEDGER_KEYS + {Key.SecretName, Key.CleanupStartedAt}

  /** The opaque members do not shadow the typed ones and hold no nulls. */
  predicate WellFormed(s: Status) {
    s.rest.Keys !! TYPED_KEYS && forall k :: k in s.rest ==> NullFree(s.rest[k])
  }

  // ----- encoding, with Go's omitempty -----

  function Text(s: string): Option<Json> {
    if s == "" then None else Some(JStr(s))
  }

  function Num(n: Option<int>): Option<Json> {
    if n.None? then None else Some(JNum(n.value))
  }

  const GENERATION_KEYS := {Key.Fingerprint, Key.CertId, Key.CasName, Key.NotBefore, Key.NotAfter, Key.UploadedAt}

  function GenerationMember(g: Generation, k: Key): Option<Json> {
    match k
    case Fingerprint => Some(JStr(g.fingerprint))
    case CertId => Num(g.certId)
    case CasName => Text(g.casName)
    case NotBefore => Some(JNum(g.notBefore))
    case NotAfter => Some(JNum(g.notAfter))
    case UploadedAt => Some(JNum(g.uploadedAt))
    case _ => None
  }

  function EncodeGeneration(g: Generation): Json {
    JObj(map k | k in GENERATION_KEYS && GenerationMember(g, k).Some? :: GenerationMember(g, k).value)
  }

  const PENDING_KEYS := {Key.Fingerprint, Key.CasName, Key.ClientToken, Key.StartedAt, Key.DomainHint}

  function PendingMember(p: PendingUpload, k: Key): Option<Json> {
    match k
    case Fingerprint => Some(JStr(p.fingerprint))
    case CasName => Some(JStr(p.casName))
    case ClientToken => Some(JStr(p.clientToken))
    case StartedAt => Some(JNum(p.startedAt))
    case DomainHint => Text(p.domainHint)
    case _ => None
  }

  function EncodePending(p: PendingUpload): Json {
    JObj(map k | k in PENDING_KEYS && PendingMember(p, k).Some? :: PendingMember(p, k).value)
  }

  function EncodeHistory(h: seq<Generation>): seq<Json> {
    seq(|h|, i requires 0 <= i < |h| => EncodeGeneration(h[i]))
  }

  function StatusMember(s: Status, k: Key): Option<Json> {
    match k
    case Current => if s.ledger.current.None? then None else Some(EncodeGeneration(s.ledger.current.value))
    case History => if s.ledger.history == [] then None else Some(JArr(EncodeHistory(s.ledger.history)))
    case Pending => if s.ledger.pending.None? then None else Some(EncodePending(s.ledger.pending.value))
    case CasProbedAt => Num(s.ledger.casProbedAt)
    case SecretName => Text(s.secretName)
    case CleanupStartedAt => Num(s.cleanupStartedAt)
    case _ => if k in s.rest then Some(s.rest[k]) else None
  }

  function Encode(s: Status): Json {
    JObj(map k | k in TYPED_KEYS + s.rest.Keys && StatusMember(s, k).Some? :: StatusMember(s, k).value)
  }

  // ----- decoding, with Go's zero values for whatever is missing -----

  function TextAt(m: map<Key, Json>, key: Key): string {
    if key in m && m[key].JStr? then m[key].s else ""
  }

  function NumAt(m: map<Key, Json>, key: Key): int {
    if key in m && m[key].JNum? then m[key].n else 0
  }

  function OptNumAt(m: map<Key, Json>, key: Key): Option<int> {
    if key in m && m[key].JNum? then Some(m[key].n) else None
  }

  function DecodeGeneration(j: Json): Generation {
    var m := Fields(j);
    Generation(TextAt(m, Key.Fingerprint), OptNumAt(m, Key.CertId), TextAt(m, Key.CasName),
               NumAt(m, Key.NotBefore), NumAt(m, Key.NotAfter), NumAt(m, Key.UploadedAt))
  }

  function DecodePending(j: Json): PendingUpload {
    var m := Fields(j);
    PendingUpload(TextAt(m, Key.Fingerprint), TextAt(m, Key.CasName), TextAt(m, Key.ClientToken),
                  NumAt(m, Key.StartedAt), TextAt(m, Key.DomainHint))
  }

  function DecodeHistory(items: seq<Json>): seq<Generation> {
    seq(|items|, i requires 0 <= i < |items| => DecodeGeneration(items[i]))
  }

  function DecodeLedger(m: map<Key, Json>): Ledger {
    Ledger(
      if Key.Current in m then Some(DecodeGeneration(m[Key.Current])) else None,
      if Key.History in m && m[Key.History].JArr? then DecodeHistory(m[Key.History].items) else [],
      if Key.Pending in m then Some(DecodePending(m[Key.Pending])) else None,
      OptNumAt(m, Key.CasProbedAt))
  }

  function Decode(doc: Json): Status {
    var m := Fields(doc);
    Status(DecodeLedger(m), TextAt(m, Key.SecretName), OptNumAt(m, Key.CleanupStartedAt), m - TYPED_KEYS)
  }

  /** Reading back what was written yields the same status. */
  lemma RoundTrip(s: Status)
    requires WellFormed(s)
    ensures Decode(Encode(s)) == s
  {
    LedgerRoundTrip(s);
    var m := Encode(s).fields;
    assert m - TYPED_KEYS == s.rest by {
      forall k ensures k in m - TYPED_KEYS <==> k in s.rest {}
    }
  }

  lemma LedgerRoundTrip(s: Status)
    requires WellFormed(s)
    ensures DecodeLedger(Encode(s).fields) == s.ledger
  {
    var l := s.ledger;
    if l.current.Some? { GenerationRoundTrip(l.current.value); }
    if l.pending.Some? { PendingRoundTrip(l.pending.value); }
    HistoryRoundTrip(l.history);
  }

  lemma HistoryRoundTrip(h: seq<Generation>)
    ensures DecodeHistory(EncodeHistory(h)) == h
  {
    forall i | 0 <= i < |h| ensures DecodeHistory(EncodeHistory(h))[i] == h[i] { GenerationRoundTrip(h[i]); }
  }

  lemma GenerationRoundTrip(g: Generation)
    ensures DecodeGeneration(EncodeGeneration(g)) == g
  {
  }

  lemma PendingRoundTrip(p: PendingUpload)
    ensures DecodePending(EncodePending(p)) == p
  {
  }

  lemma GenerationLookup(g: Generation, k: Key)
    ensures Lookup(EncodeGeneration(g), k) == GenerationMember(g, k)
  {
  }

  lemma GenerationNullFree(g: Generation)
    ensures NullFree(EncodeGeneration(g))
  {
    var m := EncodeGeneration(g).fields;
    forall k | k in m ensures NullFree(m[k]) { GenerationLookup(g, k); }
  }

  lemma PendingNullFree(p: PendingUpload)
    ensures NullFree(EncodePending(p))
  {
    var m := EncodePending(p).fields;
    forall k | k in m ensures NullFree(m[k]) { assert PendingMember(p, k) == Some(m[k]); }
  }

  lemma EncodeNullFree(s: Status)
    requires WellFormed(s)
    ensures NullFree(Encode(s))
  {
    if s.ledger.current.Some? { GenerationNullFree(s.ledger.current.value); }
    if s.ledger.pending.Some? { PendingNullFree(s.ledger.pending.value); }
    var m := Encode(s).fields;
    forall k | k in m ensures NullFree(m[k]) { assert StatusMember(s, k) == Some(m[k]); }
  }

  // ----- the document on the API server -----

  /** A document some status serialises to. */
  predicate Canonical(doc: Json) {
    doc == Encode(Decode(doc)) && WellFormed(Decode(doc))
  }

  /** The status after Status().Patch(target, MergeFrom(base)) reached the server. */
  function Patched(doc: Json, base: Status, target: Status): Json {
    MergePatch(doc, Diff(Encode(base), Encode(target)))
  }

  lemma LookupEncoded(s: Status, k: Key)
    requires WellFormed(s)
    ensures Lookup(Encode(s), k) == StatusMember(s, k)
  {
  }

  /** Nothing at all, as a generation reads when none of its members is there. */
  const NO_GENERATION := Generation("", None, "", 0, 0, 0)
  const NO_PENDING := PendingUpload("", "", "", 0, "")

  /** The generation a patch from base to t leaves: the members on which base and t agree stay as the
      server has them, a missing one reading as its zero value, and the others become those of t. */
  function MergedGeneration(server: Option<Generation>, base: Option<Generation>, t: Generation): Generation {
    var s := if server.Some? then server.value else NO_GENERATION;
    var b := if base.Some? then base.value else NO_GENERATION;
    Generation(
      if base.Some? && b.fingerprint == t.fingerprint then s.fingerprint else t.fingerprint,
      if b.certId == t.certId then s.certId else t.certId,
      if b.casName == t.casName then s.casName else t.casName,
      if base.Some? && b.notBefore == t.notBefore then s.notBefore else t.notBefore,
      if base.Some? && b.notAfter == t.notAfter then s.notAfter else t.notAfter,
      if base.Some? && b.uploadedAt == t.uploadedAt then s.uploadedAt else t.uploadedAt)
  }

  function MergedPending(server: Option<PendingUpload>, base: Option<PendingUpload>, t: PendingUpload): PendingUpload {
    var s := if server.Some? then server.value else NO_PENDING;
    var b := if base.Some? then base.value else NO_PENDING;
    PendingUpload(
      if base.Some? && b.fingerprint == t.fingerprint then s.fingerprint else t.fingerprint,
      if base.Some? && b.casName == t.casName then s.casName else t.casName,
      if base.Some? && b.clientToken == t.clientToken then s.clientToken else t.clientToken,
      if base.Some? && b.startedAt == t.startedAt then s.startedAt else t.startedAt,
      if b.domainHint == t.domainHint then s.domainHint else t.domainHint)
  }

  /** Changed fields as intended, the others as they are on the server; generation and record member by
      member. */
  function MergedLedger(server: Ledger, base: Ledger, target: Ledger): Ledger {
    Ledger(if base.current == target.current then server.current
           else if target.current.None? then None
           else Some(MergedGeneration(server.current, base.current, target.current.value)),
           if base.history == target.history then server.history else target.history,
           if base.pending == target.pending then server.pending
           else if target.pending.None? then None
           else Some(MergedPending(server.pending, base.pending, target.pending.value)),
           if base.casProbedAt == target.casProbedAt then server.casProbedAt else target.casProbedAt)
  }

  /** The status a patch leaves on the server. */
  function Landed(doc: Json, base: Status, target: Status): Status {
    var server := Decode(doc);
    Status(MergedLedger(server.ledger, base.ledger, target.ledger),
           if base.secretName == target.secretName then server.secretName else target.secretName,
           if base.cleanupStartedAt == target.cleanupStartedAt then server.cleanupStartedAt else target.cleanupStartedAt,
           Fields(Patched(doc, base, target)) - TYPED_KEYS)
  }

  /** No object is patched member by member where the server has none. */
  predicate Whole(server: Ledger, base: Ledger, target: Ledger) {
    && (base.current.Some? && target.current.Some? && base.current != target.current ==> server.current.Some?)
    && (base.pending.Some? && target.pending.Some? && base.pending != target.pending ==> server.pending.Some?)
  }

  /** What a status patch achieves from any copy, however stale: the document then reads exactly as Landed
      says, and it is one some status serialises to unless an object was patched that is not there. */
  lemma PatchFromAnyCopy(doc: Json, base: Status, target: Status)
    requires Canonical(doc) && WellFormed(base) && WellFormed(target)
    ensures Decode(Patched(doc, base, target)) == Landed(doc, base, target)
    ensures Whole(Decode(doc).ledger, base.ledger, target.ledger) ==> Canonical(Patched(doc, base, target))
  {
    hide Encode, Canonical, WellFormed, Patched, Decode, MergedLedger, StatusMember, NullFree, DecodeGeneration;
    hide DecodePending, Lookup;
    var after := Patched(doc, base, target);
    PatchStaysNullFree(doc, base, target);
    CurrentThroughPatch(doc, base, target);
    PendingThroughPatch(doc, base, target);
    forall k | k in PLAIN_KEYS ensures Lookup(after, k) == StatusMember(Landed(doc, base, target), k) {
      PlainThroughPatch(doc, base, target, k);
    }
    ReadBackPlain(after, Landed(doc, base, target));
    if Whole(Decode(doc).ledger, base.ledger, target.ledger) { ReadBack(after, Landed(doc, base, target)); }
  }

  /** From a copy whose ledger was refreshed, however stale the rest of it is, the persisted ledger
      becomes the one in memory. */
  lemma PatchAfterRefresh(doc: Json, base: Status, target: Status)
    requires Canonical(doc) && WellFormed(base) && WellFormed(target)
    requires base.ledger == Decode(doc).ledger
    ensures Canonical(Patched(doc, base, target))
    ensures Decode(Patched(doc, base, target)).ledger == target.ledger
  {
    PatchFromAnyCopy(doc, base, target);
    MergedFromItself(base.ledger, target.ledger);
  }

  lemma MergedFromItself(base: Ledger, target: Ledger)
    ensures MergedLedger(base, base, target) == target && Whole(base, base, target)
  {
  }

  // ----- member by member -----

  const PLAIN_KEYS := {Key.History, Key.CasProbedAt, Key.SecretName, Key.CleanupStartedAt}

  function EncodedCurrent(g: Option<Generation>): Json {
    if g.Some? then EncodeGeneration(g.value) else JNull
  }

  function EncodedPending(p: Option<PendingUpload>): Json {
    if p.Some? then EncodePending(p.value) else JNull
  }

  /** What arrives as the generation when the patch was computed from g, and the server holds h. */
  function PatchedGeneration(h: Option<Generation>, g: Option<Generation>, t: Generation): Json {
    MergePatch(EncodedCurrent(h), Diff(EncodedCurrent(g), EncodeGeneration(t)))
  }

  function PatchedPending(h: Option<PendingUpload>, g: Option<PendingUpload>, t: PendingUpload): Json {
    MergePatch(EncodedPending(h), Diff(EncodedPending(g), EncodePending(t)))
  }

  function MemberOfCurrent(g: Option<Generation>, k: Key): Option<Json> {
    if g.Some? then GenerationMember(g.value, k) else None
  }

  function MemberOfPending(p: Option<PendingUpload>, k: Key): Option<Json> {
    if p.Some? then PendingMember(p.value, k) else None
  }

  lemma GenerationThroughPatch(h: Option<Generation>, g: Option<Generation>, t: Generation, k: Key)
    ensures PatchedGeneration(h, g, t).JObj?
    ensures Lookup(PatchedGeneration(h, g, t), k) ==
            if MemberOfCurrent(g, k) == GenerationMember(t, k) then MemberOfCurrent(h, k) else GenerationMember(t, k)
  {
    if h.Some? { GenerationLookup(h.value, k); }
    if g.Some? { GenerationLookup(g.value, k); }
    GenerationLookup(t, k);
    GenerationNullFree(t);
    PatchedMember(EncodedCurrent(h), EncodedCurrent(g), EncodeGeneration(t), k);
  }

  lemma PendingMembersThroughPatch(h: Option<PendingUpload>, g: Option<PendingUpload>, t: PendingUpload, k: Key)
    ensures PatchedPending(h, g, t).JObj?
    ensures Lookup(PatchedPending(h, g, t), k) ==
            if MemberOfPending(g, k) == PendingMember(t, k) then MemberOfPending(h, k) else PendingMember(t, k)
  {
    if h.Some? { PendingLookup(h.value, k); }
    if g.Some? { PendingLookup(g.value, k); }
    PendingLookup(t, k);
    PendingNullFree(t);
    PatchedMember(EncodedPending(h), EncodedPending(g), EncodePending(t), k);
  }

  lemma PendingLookup(p: PendingUpload, k: Key)
    ensures Lookup(EncodePending(p), k) == PendingMember(p, k)
  {
  }

  /** The generation that arrives reads as merged. */
  lemma GenerationArrives(h: Option<Generation>, g: Option<Generation>, t: Generation)
    ensures DecodeGeneration(PatchedGeneration(h, g, t)) == MergedGeneration(h, g, t)
  {
    var j, m := PatchedGeneration(h, g, t), MergedGeneration(h, g, t);
    hide PatchedGeneration, DecodeGeneration, Lookup;
    assert TextOf(Lookup(j, Key.Fingerprint)) == m.fingerprint by { GenerationThroughPatch(h, g, t, Key.Fingerprint); }
    assert OptNumOf(Lookup(j, Key.CertId)) == m.certId by { GenerationThroughPatch(h, g, t, Key.CertId); }
    assert TextOf(Lookup(j, Key.CasName)) == m.casName by { GenerationThroughPatch(h, g, t, Key.CasName); }
    assert NumOf(Lookup(j, Key.NotBefore)) == m.notBefore by { GenerationThroughPatch(h, g, t, Key.NotBefore); }
    assert NumOf(Lookup(j, Key.NotAfter)) == m.notAfter by { GenerationThroughPatch(h, g, t, Key.NotAfter); }
    assert NumOf(Lookup(j, Key.UploadedAt)) == m.uploadedAt by { GenerationThroughPatch(h, g, t, Key.UploadedAt); }
    GenerationByMembers(j);
  }

  /** And it is complete if there was one to patch, or if it was sent whole. */
  lemma GenerationComplete(h: Option<Generation>, g: Option<Generation>, t: Generation)
    requires h.Some? || g.None?
    ensures PatchedGeneration(h, g, t) == EncodeGeneration(MergedGeneration(h, g, t))
  {
    var j, m := PatchedGeneration(h, g, t), MergedGeneration(h, g, t);
    GenerationThroughPatch(h, g, t, Key.Current);
    forall k ensures Lookup(j, k) == Lookup(EncodeGeneration(m), k) {
      GenerationLookup(m, k);
      GenerationThroughPatch(h, g, t, k);
      MergedMember(h, g, t, k);
    }
    SameLookups(j, EncodeGeneration(m));
  }

  lemma MergedMember(h: Option<Generation>, g: Option<Generation>, t: Generation, k: Key)
    requires h.Some? || g.None?
    ensures GenerationMember(MergedGeneration(h, g, t), k) ==
            if MemberOfCurrent(g, k) == GenerationMember(t, k) then MemberOfCurrent(h, k) else GenerationMember(t, k)
  {
  }

  lemma PendingArrives(h: Option<PendingUpload>, g: Option<PendingUpload>, t: PendingUpload)
    ensures DecodePending(PatchedPending(h, g, t)) == MergedPending(h, g, t)
  {
    PendingByMembers(PatchedPending(h, g, t));
    PendingMembersThroughPatch(h, g, t, Key.Fingerprint);
    PendingMembersThroughPatch(h, g, t, Key.CasName);
    PendingMembersThroughPatch(h, g, t, Key.ClientToken);
    PendingMembersThroughPatch(h, g, t, Key.StartedAt);
    PendingMembersThroughPatch(h, g, t, Key.DomainHint);
    hide PatchedPending, DecodePending, Lookup;
  }

  lemma PendingComplete(h: Option<PendingUpload>, g: Option<PendingUpload>, t: PendingUpload)
    requires h.Some? || g.None?
    ensures PatchedPending(h, g, t) == EncodePending(MergedPending(h, g, t))
  {
    var j, m := PatchedPending(h, g, t), MergedPending(h, g, t);
    PendingMembersThroughPatch(h, g, t, Key.Pending);
    forall k ensures Lookup(j, k) == Lookup(EncodePending(m), k) {
      PendingLookup(m, k);
      PendingMembersThroughPatch(h, g, t, k);
      MergedPendingMember(h, g, t, k);
    }
    SameLookups(j, EncodePending(m));
  }

  lemma MergedPendingMember(h: Option<PendingUpload>, g: Option<PendingUpload>, t: PendingUpload, k: Key)
    requires h.Some? || g.None?
    ensures PendingMember(MergedPending(h, g, t), k) ==
            if MemberOfPending(g, k) == PendingMember(t, k) then MemberOfPending(h, k) else PendingMember(t, k)
  {
  }

  function TextOf(j: Option<Json>): string {
    if j.Some? && j.value.JStr? then j.value.s else ""
  }

  function OptNumOf(j: Option<Json>): Option<int> {
    if j.Some? && j.value.JNum? then Some(j.value.n) else None
  }

  function NumOf(j: Option<Json>): int {
    if j.Some? && j.value.JNum? then j.value.n else 0
  }

  lemma GenerationByMembers(j: Json)
    ensures DecodeGeneration(j) ==
            Generation(TextOf(Lookup(j, Key.Fingerprint)), OptNumOf(Lookup(j, Key.CertId)), TextOf(Lookup(j, Key.CasName)),
                       NumOf(Lookup(j, Key.NotBefore)), NumOf(Lookup(j, Key.NotAfter)), NumOf(Lookup(j, Key.UploadedAt)))
  {
  }

  lemma PendingByMembers(j: Json)
    ensures DecodePending(j) ==
            PendingUpload(TextOf(Lookup(j, Key.Fingerprint)), TextOf(Lookup(j, Key.CasName)), TextOf(Lookup(j, Key.ClientToken)),
                          NumOf(Lookup(j, Key.StartedAt)), TextOf(Lookup(j, Key.DomainHint)))
  {
  }

  /** One top-level member of the patched document. */
  lemma MemberThroughPatch(doc: Json, base: Status, target: Status, k: Key)
    requires Canonical(doc) && WellFormed(base) && WellFormed(target)
    ensures Lookup(Patched(doc, base, target), k) ==
            if StatusMember(base, k) == StatusMember(target, k) then StatusMember(Decode(doc), k)
            else if StatusMember(target, k).None? then None
            else Some(MergePatch(At(doc, k), Diff(At(Encode(base), k), StatusMember(target, k).value)))
  {
    LookupEncoded(Decode(doc), k);
    LookupEncoded(base, k);
    LookupEncoded(target, k);
    EncodeNullFree(target);
    PatchedMember(doc, Encode(base), Encode(target), k);
  }

  lemma CurrentThroughPatch(doc: Json, base: Status, target: Status)
    requires Canonical(doc) && WellFormed(base) && WellFormed(target)
    ensures var j, s := Lookup(Patched(doc, base, target), Key.Current), Landed(doc, base, target).ledger.current;
            && (j.Some? <==> s.Some?) && (s.Some? ==> DecodeGeneration(j.value) == s.value)
            && (Whole(Decode(doc).ledger, base.ledger, target.ledger) ==> j == StatusMember(Landed(doc, base, target), Key.Current))
  {
    hide MergePatch, Diff, WellFormed;
    var h, g, t := Decode(doc).ledger.current, base.ledger.current, target.ledger.current;
    MemberThroughPatch(doc, base, target, Key.Current);
    LookupEncoded(Decode(doc), Key.Current);
    LookupEncoded(base, Key.Current);
    hide Encode, Canonical, EncodeGeneration, DecodeGeneration, MergedGeneration, Patched, Decode;
    if h.Some? { GenerationRoundTrip(h.value); }
    if g.Some? { GenerationRoundTrip(g.value); }
    if t.Some? {
      GenerationRoundTrip(t.value);
      GenerationArrives(h, g, t.value);
      if h.Some? || g.None? { GenerationComplete(h, g, t.value); }
    }
  }

  lemma PendingThroughPatch(doc: Json, base: Status, target: Status)
    requires Canonical(doc) && WellFormed(base) && WellFormed(target)
    ensures var j, s := Lookup(Patched(doc, base, target), Key.Pending), Landed(doc, base, target).ledger.pending;
            && (j.Some? <==> s.Some?) && (s.Some? ==> DecodePending(j.value) == s.value)
            && (Whole(Decode(doc).ledger, base.ledger, target.ledger) ==> j == StatusMember(Landed(doc, base, target), Key.Pending))
  {
    hide MergePatch, Diff, WellFormed;
    var h, g, t := Decode(doc).ledger.pending, base.ledger.pending, target.ledger.pending;
    MemberThroughPatch(doc, base, target, Key.Pending);
    LookupEncoded(Decode(doc), Key.Pending);
    LookupEncoded(base, Key.Pending);
    hide Encode, Canonical, EncodePending, DecodePending, MergedPending, Patched, Decode;
    if h.Some? { PendingRoundTrip(h.value); }
    if g.Some? { PendingRoundTrip(g.value); }
    if t.Some? {
      PendingRoundTrip(t.value);
      PendingArrives(h, g, t.value);
      if h.Some? || g.None? { PendingComplete(h, g, t.value); }
    }
  }

  /** Whatever is not an object is sent whole. */
  lemma PlainThroughPatch(doc: Json, base: Status, target: Status, k: Key)
    requires Canonical(doc) && WellFormed(base) && WellFormed(target) && k in PLAIN_KEYS
    ensures Lookup(Patched(doc, base, target), k) == StatusMember(Landed(doc, base, target), k)
  {
    MemberThroughPatch(doc, base, target, k);
    if StatusMember(target, k).Some? {
      PlainMember(target, k);
      SentWhole(At(doc, k), At(Encode(base), k), StatusMember(target, k).value);
    }
    SamePlainMember(base, target, k);
    SamePlainMember(Landed(doc, base, target), target, k);
    SamePlainMember(Landed(doc, base, target), Decode(doc), k);
    hide Encode, Canonical, WellFormed, Patched, Decode, StatusMember, MergePatch, Diff, MergedGeneration;
    hide MergedPending;
  }

  predicate SamePlain(s: Status, t: Status, k: Key)
    requires k in PLAIN_KEYS
  {
    match k
    case History => s.ledger.history == t.ledger.history
    case CasProbedAt => s.ledger.casProbedAt == t.ledger.casProbedAt
    case SecretName => s.secretName == t.secretName
    case _ => s.cleanupStartedAt == t.cleanupStartedAt
  }

  lemma SamePlainMember(s: Status, t: Status, k: Key)
    requires k in PLAIN_KEYS
    ensures StatusMember(s, k) == StatusMember(t, k) <==> SamePlain(s, t, k)
  {
    hide EncodeHistory, EncodeGeneration, EncodePending;
    if k == Key.History { HistoryMemberExact(s.ledger.history, t.ledger.history); }
  }

  lemma SentWhole(server: Json, base: Json, target: Json)
    requires !target.JObj?
    ensures MergePatch(server, Diff(base, target)) == target
  {
  }

  lemma PlainMember(s: Status, k: Key)
    requires k in PLAIN_KEYS && StatusMember(s, k).Some?
    ensures !StatusMember(s, k).value.JObj?
  {
  }

  lemma HistoryMemberExact(h: seq<Generation>, k: seq<Generation>)
    ensures EncodeHistory(h) == EncodeHistory(k) <==> h == k
    ensures EncodeHistory(h) == [] <==> h == []
  {
    HistoryRoundTrip(h);
    HistoryRoundTrip(k);
  }

  /** A document whose plain members are those of s, and whose objects read as those of s, reads as s. */
  lemma ReadBackPlain(doc: Json, s: Status)
    requires doc.JObj?
    requires forall k :: k in PLAIN_KEYS ==> Lookup(doc, k) == StatusMember(s, k)
    requires var j := Lookup(doc, Key.Current);
             (j.Some? <==> s.ledger.current.Some?) && (j.Some? ==> DecodeGeneration(j.value) == s.ledger.current.value)
    requires var j := Lookup(doc, Key.Pending);
             (j.Some? <==> s.ledger.pending.Some?) && (j.Some? ==> DecodePending(j.value) == s.ledger.pending.value)
    ensures Decode(doc) == s.(rest := doc.fields - TYPED_KEYS)
  {
    hide DecodeGeneration, DecodePending;
    HistoryRoundTrip(s.ledger.history);
    assert Lookup(doc, Key.History) == StatusMember(s, Key.History);
    assert Lookup(doc, Key.CasProbedAt) == StatusMember(s, Key.CasProbedAt);
    assert Lookup(doc, Key.SecretName) == StatusMember(s, Key.SecretName);
    assert Lookup(doc, Key.CleanupStartedAt) == StatusMember(s, Key.CleanupStartedAt);
  }

  /** A null-free document whose typed members are those of s is what s serialises to, with its own rest. */
  lemma ReadBack(doc: Json, s: Status)
    requires doc.JObj? && NullFree(doc)
    requires forall k :: k in TYPED_KEYS ==> Lookup(doc, k) == StatusMember(s, k)
    ensures Canonical(doc) && Decode(doc) == s.(rest := doc.fields - TYPED_KEYS)
  {
    var goal := s.(rest := doc.fields - TYPED_KEYS);
    assert WellFormed(goal);
    forall k ensures Lookup(doc, k) == Lookup(Encode(goal), k) {
      LookupEncoded(goal, k);
      MemberWithRest(doc, s, k);
    }
    SameLookups(doc, Encode(goal));
    RoundTrip(goal);
  }

  lemma MemberWithRest(doc: Json, s: Status, k: Key)
    requires doc.JObj?
    requires k in TYPED_KEYS ==> Lookup(doc, k) == StatusMember(s, k)
    ensures Lookup(doc, k) == StatusMember(s.(rest := doc.fields - TYPED_KEYS), k)
  {
  }

  lemma PatchStaysNullFree(doc: Json, base: Status, target: Status)
    requires Canonical(doc) && WellFormed(base) && WellFormed(target)
    ensures NullFree(Patched(doc, base, target)) && Patched(doc, base, target).JObj?
  {
    EncodeNullFree(Decode(doc));
    PatchedNullFree(doc, Diff(Encode(base), Encode(target)));
  }

  // ----- stale copies -----

  /** Wherever the baseline agrees with the target, the server does too. */
  predicate AgreesWhereSilent(server: Option<Generation>, base: Option<Generation>, t: Generation) {
    var s := if server.Some? then server.value else NO_GENERATION;
    var b := if base.Some? then base.value else NO_GENERATION;
    && (base.Some? && b.fingerprint == t.fingerprint ==> s.fingerprint == t.fingerprint)
    && (b.certId == t.certId ==> s.certId == t.certId)
    && (b.casName == t.casName ==> s.casName == t.casName)
    && (base.Some? && b.notBefore == t.notBefore ==> s.notBefore == t.notBefore)
    && (base.Some? && b.notAfter == t.notAfter ==> s.notAfter == t.notAfter)
    && (base.Some? && b.uploadedAt == t.uploadedAt ==> s.uploadedAt == t.uploadedAt)
  }

  /** Why the baseline must move with the copy: a new generation arrives as intended exactly if the server
      agrees with it in every member in which the baseline does. If the server has none at all, a period
      of validity it shares with the baseline is not sent, and the stored generation has none. */
  lemma StaleBaselineTearsGeneration(doc: Json, base: Status, target: Status, t: Generation)
    requires Canonical(doc) && WellFormed(base) && WellFormed(target)
    requires target.ledger.current == Some(t) && base.ledger.current != Some(t)
    ensures var stored := Decode(Patched(doc, base, target)).ledger.current;
            && (stored == Some(t) <==> AgreesWhereSilent(Decode(doc).ledger.current, base.ledger.current, t))
            && (Decode(doc).ledger.current.None? && base.ledger.current.Some? && base.ledger.current.value.notAfter == t.notAfter ==>
                  stored.Some? && stored.value.notAfter == 0)
  {
    hide Encode, Canonical, WellFormed, Patched, Decode;
    PatchFromAnyCopy(doc, base, target);
  }

  /** Without id and fingerprint. */
  function Blanked(g: Generation): Generation {
    g.(certId := None, fingerprint := "")
  }

  /** The id a write took from the stored generation. */
  function Struck(before: Generation, after: Generation): Option<int> {
    if before.certId != after.certId then before.certId else None
  }

  /** The probe does not re-read what it judges. Its patch strikes id and fingerprint from whatever
      generation h the server holds by then, and leaves the rest of the ledger alone. What is stored is what
      was intended exactly if h differs from the generation judged in nothing but these two members; and the
      id struck is the one judged exactly if h still has it. */
  lemma ErasureFromAnyCopy(doc: Json, base: Status, g: Generation, h: Generation)
    requires Canonical(doc) && WellFormed(base) && Decode(doc).ledger.current == Some(h)
    requires base.ledger.current == Some(g) && g.certId.Some? && g.fingerprint != ""
    ensures var erased := base.(ledger := base.ledger.(current := Some(Blanked(g))));
            var stored := Decode(Patched(doc, base, erased)).ledger;
            && stored == Decode(doc).ledger.(current := Some(Blanked(h)))
            && (stored.current == erased.ledger.current <==> h == g.(certId := h.certId, fingerprint := h.fingerprint))
            && (Struck(h, stored.current.value) == g.certId <==> h.certId == g.certId)
  {
    var erased := base.(ledger := base.ledger.(current := Some(Blanked(g))));
    assert WellFormed(erased);
    hide Encode, Canonical, WellFormed, Patched, Decode;
    PatchFromAnyCopy(doc, base, erased);
  }

  /** The retention pass does not re-read either: what it leaves of its copy replaces whatever history the
      server holds by then, and the rest of the ledger stays. */
  lemma TrimmingFromAnyCopy(doc: Json, base: Status, keep: nat)
    requires Canonical(doc) && WellFormed(base) && keep < |base.ledger.history|
    ensures var trimmed := base.(ledger := base.ledger.(history := base.ledger.history[..keep]));
            var stored, server := Decode(Patched(doc, base, trimmed)).ledger, Decode(doc).ledger;
            stored == server.(history := base.ledger.history[..keep])
  {
    var trimmed := base.(ledger := base.ledger.(history := base.ledger.history[..keep]));
    assert WellFormed(trimmed);
    hide Encode, Canonical, WellFormed, Patched, Decode;
    PatchFromAnyCopy(doc, base, trimmed);
  }
}
