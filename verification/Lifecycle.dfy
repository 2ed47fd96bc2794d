/**
 The whole life of one AliyunCertificate: rounds of maintenance and of deletion in any order, each of
 which starts from whatever the cache holds and may stop at any of its calls, and what holds of every
 state they can lead to.
 */
module Lifecycle {
  import opened Wrappers
  import opened Json
  import opened Status
  import opened Naming
  import opened Cas
  import opened Retries
  import opened LedgerRuns
  import opened LedgerAccounts
  import opened Surroundings
  import opened Retention
  import opened Epochs
  import opened Persistence
  import opened CertificateRound
  import opened ClusterObjects
  import opened Teardown
  import opened CleanupPolicy

  /** What a round is started with: the spec, the time since the last one, and the validity of the material
      it will find in the Secret. */
  datatype Input =
    | Maintain(spec: Spec, elapsed: nat, domains: seq<string>, notBefore: int, notAfter: int)
    | Delete(spec: Spec, elapsed: nat, policy: Policy, specName: string)

  /** If a certificate of ours is in the cloud without anything leading to it, a recorded step gave it up;
      and unless a fingerprint came back or a deletion round wrote from an outdated copy, which takes one
      that has begun, that was no retention pass. */
  ghost predicate Accounted(store: Store)
    reads store, store.cas
  {
    forall id :: id in Lost(store.Now()) ==>
      exists i :: 0 <= i < |store.events| && i < |store.worlds| && id in Forfeited(store.worlds[i], store.events[i])
                  && (!store.cluster.recurred && (store.begun.None? || Tidy(store.events)) ==> !FromCopy(store.events[i]))
  }

  /** After an orderly deletion nothing of ours is left in the cloud: one whose clean-up was not abandoned,
      and before which no step had given anything up, if no maintenance was done after a deletion round, or
      if the status recorded nothing any more. */
  ghost predicate LeftClean(store: Store)
    reads store, store.cas
  {
    forall r :: 0 <= r < |store.events| && r < |store.worlds| && store.events[r] == Release(false)
                && NothingForfeited(store, r) && (!store.reopened || NothingRecorded(store.worlds[r].ledger)) ==>
      forall id :: id in store.mine ==> id !in store.cas.certs
  }

  ghost predicate NothingForfeited(store: Store, n: nat)
    reads store
  {
    forall i :: 0 <= i < n && i < |store.events| && i < |store.worlds| ==> Forfeited(store.worlds[i], store.events[i]) == {}
  }

  /** No certificate in service was deleted, but by a deletion round: every other Delete that took effect
      was a reclaim, and every reclaim was harmless, unless a fingerprint came back. */
  ghost predicate Considerate(store: Store)
    reads store
  {
    && Answered(store.events, store.reclaims)
    && (!store.cluster.recurred ==> forall i :: 0 <= i < |store.reclaims| ==> Harmless(store.reclaims[i]))
  }

  /** Current and history are newest first, no fingerprint is empty, and none is there twice, unless one came
      back. */
  ghost predicate InSequence(store: Store)
    reads store
  {
    var held := Held(store.Recorded());
    && Sorted(held) && (forall i :: 0 <= i < |held| ==> held[i].fingerprint != "")
    && (!store.cluster.recurred ==> AllDiffer(held))
  }

  /** As long as no deletion round has begun, the books are balanced: whatever became current is held, reclaimed or
      erased, but for what patches from outdated copies overwrote and brought back. */
  ghost predicate Audited(store: Store)
    reads store
  {
    && |store.worlds| == |store.events| + 1
    && (store.begun.None? ==>
          Balanced(multiset(Held(store.worlds[0].ledger)), Account(store.worlds, store.events, |store.events|),
                   multiset(Held(store.Recorded()))))
  }

  /** Whatever the status holds became current in a recorded step, or was there at the beginning. */
  ghost predicate Sourced(store: Store)
    reads store
  {
    && |store.worlds| > 0
    && forall g :: HeldBy(store.Recorded(), g) ==>
         HeldBy(store.worlds[0].ledger, g) || exists i :: 0 <= i < |store.events| && Issues(store.events[i], g)
  }

  ghost predicate InControl(store: Store)
    reads store, store.cas
  {
    Accounted(store) && LeftClean(store) && Considerate(store) && InSequence(store) && Audited(store) && Sourced(store)
  }

  lemma RunsAreAccounted(store: Store)
    requires store.Valid() && Lost(store.worlds[0]) == {}
    ensures InControl(store)
  {
    hide Store.Valid, Store.Course, Store.Undisturbed, Store.Alive, Accounted, LeftClean, Considerate, InSequence, Audited, Sourced;
    IsAccounted(store);
    IsLeftClean(store);
    IsConsiderate(store);
    IsInSequence(store);
    IsAudited(store);
    IsSourced(store);
  }

  lemma IsAccounted(store: Store)
    requires store.Valid() && Lost(store.worlds[0]) == {}
    ensures Accounted(store)
  {
    hide Run, Step, Lost, Forfeited, InStep, Epoch, Tidy, Kept, Harmless, Winding, Store.Punctual, Store.Versioned;
    var n := |store.worlds| - 1;
    assert store.worlds[n] == store.Now();
    forall id | id in Lost(store.Now())
      ensures exists i :: 0 <= i < |store.events| && i < |store.worlds| && id in Forfeited(store.worlds[i], store.events[i])
                          && (!store.cluster.recurred && (store.begun.None? || Tidy(store.events)) ==> !FromCopy(store.events[i]))
    {
      if store.begun.None? { KeptIsTidy(store.events); }
      GivenUp(store.owner, store.worlds, store.events, n, id,
              !store.cluster.recurred && (store.begun.None? || Tidy(store.events)));
    }
  }

  lemma KeptIsTidy(es: seq<Event>)
    requires Kept(es)
    ensures Tidy(es)
  {
  }

  lemma GivenUp(o: Owner, ws: seq<World>, es: seq<Event>, n: nat, id: int, orderly: bool)
    requires Run(o, ws, es) && n < |ws| && id in Lost(ws[n]) && Lost(ws[0]) == {}
    requires orderly ==> Tidy(es) && RewritesForfeitNothing(ws, es)
    ensures exists i :: 0 <= i < |es| && i < |ws| && id in Forfeited(ws[i], es[i]) && (orderly ==> !FromCopy(es[i]))
  {
    hide Step, Lost, Forfeited;
    LedgerSafety(o, ws, es, n, id);
    var i :| 0 <= i < n && id in Forfeited(ws[i], es[i]);
    assert orderly && es[i].Rewrite? ==> Forfeited(ws[i], es[i]) == {};
  }

  lemma IsLeftClean(store: Store)
    requires store.Valid() && Lost(store.worlds[0]) == {}
    ensures LeftClean(store)
  {
    hide Run, Step, Lost, Forfeited, Winding, Store.InOrder, Store.Punctual, Store.Versioned;
    var n := |store.worlds| - 1;
    RunLength(store.owner, store.worlds, store.events);
    forall r | 0 <= r < |store.events| && store.events[r] == Release(false)
               && NothingForfeited(store, r) && (!store.reopened || NothingRecorded(store.worlds[r].ledger))
      ensures forall id :: id in store.mine ==> id !in store.cas.certs
    {
      if store.reopened { EmptyRecordForfeitsNothing(store.worlds[r], store.events[r]); }
      OrderlyDeletionLeavesNothing(store.owner, store.worlds, store.events, r, n);
    }
  }

  lemma IsConsiderate(store: Store)
    requires store.Valid()
    ensures Considerate(store)
  {
    hide Run, Harmless, InStep, Epoch, Tidy, Store.Punctual, Store.Versioned;
  }

  lemma IsInSequence(store: Store)
    requires store.Valid()
    ensures InSequence(store)
  {
    hide Run, Step, Aged, Chronological, Latest, Sorted, InStep, Epoch, Tidy, Store.Versioned, Harmless, AllDiffer;
    var n := |store.worlds| - 1;
    HistoryStaysOrdered(store.owner, store.worlds, store.events, store.start, n);
    store.Reachable();
    if !store.cluster.recurred {
      store.InStepSince(n);
      InForceDiffers(store.cluster, store.Recorded(), store.loaded, InService(store.events));
    }
  }

  lemma IsAudited(store: Store)
    requires store.Valid()
    ensures Audited(store)
  {
    hide Run, Step, Balanced, Account, Store.InOrder, Store.Punctual, Store.Versioned;
    RunLength(store.owner, store.worlds, store.events);
    if store.begun.None? {
      Conservation(store.owner, store.worlds, store.events, |store.events|);
    }
  }

  lemma IsSourced(store: Store)
    requires store.Valid()
    ensures Sourced(store)
  {
    hide Run, Step, HeldBy, Issues, Store.InOrder, Store.Punctual, Store.Versioned;
    var n := |store.worlds| - 1;
    assert store.worlds[n].ledger == store.Recorded();
    RunLength(store.owner, store.worlds, store.events);
    forall g | HeldBy(store.Recorded(), g)
      ensures HeldBy(store.worlds[0].ledger, g) || exists i :: 0 <= i < |store.events| && Issues(store.events[i], g)
    {
      HeldWasServed(store.owner, store.worlds, store.events, n, g);
    }
  }

  /** The next read from the cache is of the latest version. */
  predicate UpToDate(turns: seq<ApiTurn>) {
    turns == [] || turns[0].lag == 0
  }

  /** A round gets its copy. */
  method Open(store: Store, spec: Spec, now: int) returns (round: Option<Round>)
    requires store.Valid() && store.finalizer && now == store.clock
    modifies store`turns, store`cluster, store`passed
    ensures store.Valid() && store.Later()
    ensures round.Some? ==>
              && fresh(round.value) && round.value.Valid() && round.value.store == store
              && round.value.spec == spec && round.value.now == now && round.value.ac == round.value.orig
              && (round.value.ac.cleanupStartedAt.Some? ==> store.begun.Some? && store.begun.value <= round.value.at)
    ensures old(store.Undisturbed()) ==> round.Some? && (old(UpToDate(store.turns)) ==> round.value.Fresh())
    ensures round.Some? <==> old(store.Due()).Healthy?
  {
    hide Store.Valid, Store.Course, Store.Undisturbed, Store.Alive, WellFormed, Decode, AllMoved;
    var cached, at, err := store.ReadCached();
    if err.Some? { return None; }
    var r := new Round(store, spec, now, cached, at);
    return Some(r);
  }

  /** A round of maintenance. Whatever the state it finds, if its copy is up to date, nothing fails, nobody
      interferes with the certificates and none hides under the name, the status ends up with the generation
      that was in the Secret. */
  method Maintenance(store: Store, input: Input)
    requires store.Valid() && store.finalizer && input.Maintain?
    modifies store, store.cas
    ensures store.Valid() && store.Since() && store.begun == old(store.begun)
    ensures store.reopened <==> old(store.reopened) || old(store.begun).Some?
    ensures forall i :: |old(store.reclaims)| <= i < |store.reclaims| ==>
              store.clock - store.reclaims[i].gone.uploadedAt
              >= if input.spec.minAge.None? then 86400 else input.spec.minAge.value
    ensures || store.Recorded().pending in {old(store.Recorded()).pending, None}
            || store.Recorded().pending ==
               Some(PendingUpload(store.loaded, CASName(store.owner.crName, store.loaded),
                                  UploadToken(store.owner.uid, store.loaded, store.clock), store.clock,
                                  if input.spec.dnsNames != [] then input.spec.dnsNames[0] else input.spec.commonName))
    ensures old(store.Undisturbed() && UpToDate(store.turns)) && |store.loaded| == FINGERPRINT_LEN &&
            (input.spec.upload ==> Unobstructed(old(store.cas.certs), CASName(store.owner.crName, store.loaded),
                                                FindHint(input.domains), store.clock)) ==>
              && Serves(store.Recorded(), store.loaded)
              && (store.Recorded().current != old(store.Recorded()).current || !Serves(old(store.Recorded()), store.loaded) ==>
                    var g := store.Recorded().current.value;
                    && g.notBefore == input.notBefore && g.notAfter == input.notAfter && g.uploadedAt == store.clock
                    && (g.certId.Some? <==> input.spec.upload))
  {
    hide Store.Valid, Store.Course, Store.Undisturbed, Store.Alive, WellFormed, Decode, AllMoved, Unobstructed, CASName, Serves;
    store.BeginMaintenance();
    var now := store.ReadClock(input.elapsed);
    var round := Open(store, input.spec, now);
    if round.None? { return; }
    var fingerprint, err := store.ReadSecret();
    if err.Some? || |fingerprint| != FINGERPRINT_LEN { return; }
    Maintained(round.value, Bundle(fingerprint, input.domains, input.notBefore, input.notAfter));
  }

  method Maintained(round: Round, b: Bundle)
    requires round.Valid() && round.store.Active() && round.ac == round.orig
    requires b.fingerprint == round.store.loaded && |b.fingerprint| == FINGERPRINT_LEN
    modifies round, round.store, round.store.cas
    ensures round.store.Valid() && round.store.Later() && round.store.loaded == old(round.store.loaded)
    ensures forall i :: |old(round.store.reclaims)| <= i < |round.store.reclaims| ==>
              round.now - round.store.reclaims[i].gone.uploadedAt
              >= if round.spec.minAge.None? then 86400 else round.spec.minAge.value
    ensures round.store.Recorded().pending in {old(round.store.Recorded()).pending, None} || round.Intended(b)
    ensures old(round.store.Undisturbed() && round.Fresh() && (round.spec.upload ==> round.Free(b))) ==>
              && Serves(round.store.Recorded(), b.fingerprint)
              && (round.Taken(b) || (Serves(old(round.ac.ledger), b.fingerprint) &&
                                     round.store.Recorded().current == old(round.ac.ledger).current))
  {
    hide Store.Valid, Store.Course, Store.Undisturbed, Store.Alive, Store.Active, WellFormed, Decode, Serves, Round.Trimmed;
    var _ := round.ReconcileIssued(b);
  }

  /** No Binding of the certificate that was in use showed in the last listing. */
  ghost predicate Unbound(store: Store)
    reads store`listings
  {
    store.listings != [] && !AnyLive(Referencing(store.listings[|store.listings| - 1].bindings, store.owner.crName))
  }

  /** A deletion round. The finalizer never goes while a Binding is in use; and if nothing fails, nobody interferes
      with the certificates and the Certificate is gone, it goes as soon as none is. */
  method Removal(store: Store, api: Api, input: Input)
    requires store.Valid() && store.finalizer && input.Delete? && api.state.crName == store.owner.crName
    modifies store, store.cas, api
    ensures store.Valid() && store.Since() && OnlyOwnDeleted(api) && store.reopened == old(store.reopened)
    ensures !store.finalizer ==> Unbound(store)
    ensures old(store.Undisturbed() && api.Obliging() && api.Ahead().certificate.None?) ==>
              |store.listings| == |old(store.listings)| + 1 && (!store.finalizer <==> Unbound(store))
  {
    hide Store.Valid, Store.Course, Store.Undisturbed, Store.Alive, WellFormed, Decode, AllMoved;
    store.BeginDeletion();
    var now := store.ReadClock(input.elapsed);
    var round := Open(store, input.spec, now);
    if round.None? { return; }
    Removed(round.value, api, input.policy, input.specName);
  }

  method Removed(round: Round, api: Api, policy: Policy, specName: string)
    requires round.Valid() && round.ac == round.orig && api.state.crName == round.store.owner.crName
    requires round.store.sweeping && round.store.begun.Some?
    requires round.ac.cleanupStartedAt.Some? ==> round.store.begun.value <= round.at
    modifies round, round.store, round.store.cas, api
    ensures round.store.Valid() && round.store.Later() && OnlyOwnDeleted(api)
    ensures |round.store.listings| == |old(round.store.listings)| + 1 && (!round.store.finalizer ==> Unbound(round.store))
    ensures old(round.store.Undisturbed() && api.Obliging() && api.Ahead().certificate.None?) && Unbound(round.store) ==>
              !round.store.finalizer
  {
    hide Store.Valid, Store.Course, Store.Undisturbed, Store.Alive, WellFormed, Decode, Deletion.Removed, Deletion.EmptiedExactly;
    hide AnyLive, AllMoved;
    var deletion := new Deletion(round, api, policy);
    ghost var _ := deletion.ReconcileDelete(specName);
  }

  /** Every Secret deleted meanwhile was ours. */
  twostate predicate OnlyOwnDeleted(api: Api)
    reads api
  {
    && api.state.crName == old(api.state.crName) && old(api.deletions) <= api.deletions
    && forall i :: |old(api.deletions)| <= i < |api.deletions| ==> api.deletions[i].annotation == api.state.crName
  }

  lemma HasBegun(store: Store)
    requires store.Valid()
    ensures |store.worlds| > 0
  {
  }

  /** The cluster is where its moves have led it, and the flag says whether one of them brought a fingerprint
      back. */
  lemma IsOnCourse(store: Store)
    requires store.Valid()
    ensures store.cluster == AllMoved(store.origin, store.passed)
    ensures store.cluster.recurred <==> store.origin.recurred || Recurs(store.origin, store.passed)
    ensures store.Course() == store.passed + Coming(store.turns)
  {
    hide Run, Store.Versioned, Store.Punctual, Store.InOrder, Store.Closing;
    RecurredIff(store.origin, store.passed);
  }

  /** Once a resource is being deleted, no round takes it for one in service any more. */
  predicate DeletionLast(inputs: seq<Input>) {
    forall i, j :: 0 <= i < j < |inputs| && inputs[i].Delete? ==> inputs[j].Delete?
  }

  /** Any rounds, in any order. */
  method Operate(store: Store, api: Api, inputs: seq<Input>)
    requires store.Valid() && Lost(store.worlds[0]) == {} && api.state.crName == store.owner.crName
    modifies store, store.cas, api
    ensures store.Valid() && store.Since() && InControl(store) && OnlyOwnDeleted(api)
    ensures old(store.begun.None? && !store.reopened) && DeletionLast(inputs) ==> !store.reopened
    ensures old(store.begun.None?) && (forall i :: 0 <= i < |inputs| ==> inputs[i].Maintain?) ==> store.begun.None?
    ensures store.cluster.recurred <==> store.origin.recurred || Recurs(store.origin, store.passed)
    ensures old(!store.cluster.recurred) && !Recurs(old(store.cluster), Coming(old(store.turns))) ==> !store.cluster.recurred
  {
    hide Store.Valid, Store.Course, Store.Undisturbed, Store.Alive, Lost, InControl;
    HasBegun(store);
    ghost var cluster, passed, turns := store.cluster, store.passed, store.turns;
    IsOnCourse(store);
    for n := 0 to |inputs|
      invariant store.Valid() && store.Since() && OnlyOwnDeleted(api) && |old(store.worlds)| > 0
      invariant old(store.begun.None? && !store.reopened) && DeletionLast(inputs) ==>
                  !store.reopened && (store.begun.Some? ==> n > 0 && inputs[n - 1].Delete?)
      invariant old(store.begun.None?) && (forall i :: 0 <= i < |inputs| ==> inputs[i].Maintain?) ==> store.begun.None?
    {
      if store.finalizer {
        if inputs[n].Maintain? { Maintenance(store, inputs[n]); } else { Removal(store, api, inputs[n]); }
      }
    }
    RunsAreAccounted(store);
    IsOnCourse(store);
    if !cluster.recurred && !Recurs(cluster, Coming(turns)) {
      NoneRecurred(store.origin, passed, Coming(turns), store.passed, Coming(store.turns));
    }
  }
}
