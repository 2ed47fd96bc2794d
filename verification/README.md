# Certificates in an unreliable cloud: a model and its proofs

Two Kubernetes controllers keep certificates in Alibaba Cloud. The certificate controller uploads
what cert-manager puts into a Secret to CAS, and keeps a ledger of the uploaded generations in the
status of an `AliyunCertificate`. The binding controller puts the current certificate on a target
(an FC3 custom domain or an OSS CNAME) and takes it off again. Either process may die between any
two effects, any answer may get lost, and others work on the same account and in the same cluster.

This project models both controllers in Dafny and proves what survives all of that.
`dafny verify dfyconfig.toml` checks the whole of it.

## How the model is built

* **The stored status** (`Json.dfy`, `Status.dfy`). The status is a JSON document; every write is a
  merge patch (section 2 of RFC 7396) computed from a baseline in memory. When such a patch produces
  the intended document is settled once, for arbitrary documents, and then used.
* **The certificate store** (`Cas.dfy`, `Naming.dfy`, `Retries.dfy`). A class that follows the
  repository's own executable cloud. Each call meets a *turn*: edits by other users of the account,
  then a failure before or after the effect, or none. A crash is one of the failures. The listing
  matches a keyword against any substring of a domain and omits expired certificates.
* **The ledger as a state machine** (`LedgerRuns.dfy`, `LedgerAccounts.dfy`). Ten kinds of effects
  and what every run of them keeps. Two of them are patches computed from a copy that had fallen
  behind, which is the ledger of some earlier world of the run.
* **The code** (`Persistence.dfy`, `CertificateRound.dfy`, `Teardown.dfy`, `Lifecycle.dfy`). Classes
  whose methods follow the Go functions. `Store` is what survives a crash; each of its methods is one
  call, may fail before or after it took effect, and appends the effect to a ghost trace. Its
  invariant says that this trace is a run of the state machine, so whatever holds of all runs holds
  wherever the code may stop. It keeps every version it ever held, and a round starts from any of
  them. `Lifecycle.Operate` strings any rounds together. Besides what holds wherever a round stops, each
  kind of round is shown to reach its end when nothing fails and nobody interferes.
* **The surroundings** (`Surroundings.dfy`, `Epochs.dfy`, `Retention.dfy`, `Coupling.dfy`). Binding
  rounds, edits and renewals may fall between the listing of the Bindings and each Delete. `Epochs`
  follows the fingerprints through a whole run, and `Coupling` shows that what a Binding round does to
  its status is one of these moves.
* **The front of a certificate round** (`CertificateFront.dfy`, `ClusterObjects.dfy`). The issuer pin
  and the guard on the Secret name, against a cert-manager that may write its Secret at any moment.
* **The binding controller** (`BindingRound.dfy`, `Providers.dfy`, `Fc3Sdk.dfy`, `Pki.dfy`,
  `CleanupPolicy.dfy`), over both target shapes.
* **Algorithms with exact specifications** (`Arbitration.dfy`, `Sans.dfy`, `Protocols.dfy`,
  `Paging.dfy`, `ClientCache.dfy`, `Text.dfy`).

## Where the code and its remarks disagree

The code was followed in each case.

* `internal/controller/retention.go:71` says that newer generations cannot pass once the oldest is
  blocked. That holds for age and for Bindings that lag behind (`Retention.BlockedOldestBlocksNewer`).
  A newer generation that could go is passed over exactly if every Binding has caught up, one of them
  uses the oldest generation, and some newer one is old enough and used by none
  (`Retention.StoppingCostsSomethingIff`); the pass then drops nothing at all
  (`Retention.StoppingDropsNothing`).
* `internal/controller/upload.go:149-156` explains why an upload re-reads the ledger. The existence
  probe does not. Its patch strikes id and fingerprint from the generation the server holds by then;
  what is stored is what was intended exactly if the two generations differ in nothing but these two
  members, and the id struck is the one judged exactly if the stored generation still has it
  (`Status.ErasureFromAnyCopy`).
* The retention pass does not re-read either. What it leaves of its copy replaces the stored history
  (`Status.TrimmingFromAnyCopy`), and that gives up exactly what only the stored history named
  (`LedgerRuns.StepLosesExactly`). It is nothing, as long as no fingerprint returns and no deletion
  round has written from an outdated copy (`Epochs.StepKeepsEpoch`).
* A deletion round that finds its clock already started does not re-read either. The finalizer then
  goes from a status that records nothing exactly if the copy recorded something wherever the status
  did (`Teardown.Deletion.ReconcileDelete`). No certificate is given up by that, as long as no
  maintenance follows a deletion round (`Lifecycle.Operate`).
* The round that supersedes a generation may delete its certificate while the stored status still calls
  it current. It does so exactly if `keepLast` is 1 and every superseded generation passes the three
  guards (`CertificateRound.SupersededIsHitIff`); a status of one generation, a day old and used by no
  Binding, is enough (`CertificateRound.SupersededIsHit`).
* With an up-to-date copy and uploading switched on, a round that ends well leaves a current generation
  without a certificate exactly if the same material had been recorded without one before
  (`CertificateRound.Round.ReconcileIssued`): switching uploading on uploads nothing by itself.
* `internal/controller/deletion.go:289-294` notes that a record may be dropped although its
  certificate exists. If nobody interferes, the certificates of that name that stay are exactly those the
  listing omits for the keyword that was used, and whatever others do, none of ours stays but such
  (`Teardown.Deletion.CleanupPendingUpload`); with a host name for keyword, a certificate that has only a
  wildcard for it stays (`Teardown.WrongKeywordLeavesCertificate`). A whole deletion round promises no more
  (`Teardown.Deletion.ReconcileDelete`).
* An answer without a body ends the page loop as if the listing were complete
  (`Paging.FindUploaded`).
* Target keys and cache identities join fields with slashes. A key names one target exactly if no field
  of that target has a slash (`Arbitration.KeyNamesOneTarget`), and an identity likewise one key
  (`ClientCache.IdentityNamesOneKey`); `region` and `domainName` only have to be non-empty
  (`Arbitration.SlashesCollide`).

## Model

| member | source | states |
|---|---|---|
| Json.PatchExact | internal/controller/status.go:51-54 | for all documents: the patch computed from a baseline yields the intended document if and only if the server agrees with the intended document wherever the patch is silent, recursively |
| Json.PatchedMemberExact | internal/controller/upload.go:154-156 | however stale the rest of the baseline is, a member on which server and baseline agree ends up as intended |
| Json.PatchedNullFree | internal/controller/status.go:51-54 | a patch never leaves a null in the stored document |
| Status.RoundTrip | api/v1alpha1/aliyuncertificate_types.go:140-183 | a status read back from what it serialises to is the same status, with omitted empty fields |
| Status.PatchFromAnyCopy | internal/controller/status.go:51-54 | whatever the baseline and however stale: after the patch the document reads member by member as changed where baseline and target differ and as the server had it elsewhere; it stays one a status serialises to unless an object was patched that is not there |
| Status.PatchAfterRefresh | internal/controller/upload.go:157-170 | after the ledger was re-read into copy and baseline, the final patch makes the persisted current, history, pendingUpload and casProbedAt equal those in memory, however stale the rest |
| Status.StaleBaselineTearsGeneration | internal/controller/upload.go:154-156 | a new generation arrives as intended if and only if the server agrees with it in every member in which the baseline does; if the server has none, a shared end of validity gets lost |
| Status.ErasureFromAnyCopy | internal/controller/probe.go:57-69 | from whatever copy it was computed, the erasing patch strikes id and fingerprint of the stored generation and nothing else; the result is the intended one, and the id struck the one judged, under the exact conditions given |
| Status.TrimmingFromAnyCopy | internal/controller/retention.go:91-121 | what a pass leaves of its copy replaces whatever history the server holds |
| Naming.Sanitize | pkg/naming/naming.go:66-76 | character by character what becomes of a resource name |
| Naming.SanitizeName | pkg/naming/naming.go:66-76 | the loop computes it |
| Naming.CASNameShape | pkg/naming/naming.go:24-42 | the name is the longest part of the resource's first fifty characters, sanitised, that ends in a letter or digit, or "cert" exactly if there is none, an underscore, and twelve characters of the fingerprint; it never exceeds 63 characters |
| Naming.UploadTokenShape | internal/controller/upload.go:136-147 | the token is sixteen characters of the resource's uid without dashes, twenty-four of the fingerprint, and the hexadecimal digits of the seconds, modulo 2^32 |
| Naming.SameNameIffSamePrefix | pkg/naming/naming.go:24-42 | for one resource, two names are equal exactly when the fingerprints agree in their first twelve characters |
| Naming.TokenDeterminesName | internal/controller/upload.go:141-147 | equal upload tokens of one resource, whenever issued, belong to equal names |
| Naming.TokenIsFreshIffTimeDiffers | internal/controller/upload.go:136-147 | a re-upload gets a token of its own unless it starts a multiple of 2^32 seconds later |
| Cas.CAS.Upload | pkg/aliyun/fake/cas.go:92-126 | the new store, the id and the error for every fault: token replay, duplicate name, commit, and a lost answer |
| Cas.CAS.Delete | pkg/aliyun/fake/cas.go:128-147 | deletes the certificate and its token, or answers that it does not exist |
| Cas.CAS.FindUploaded | internal/controller/upload.go:250-267 | the listing is complete and truthful for unexpired certificates one of whose domains contains the keyword |
| Cas.AllEditsExternal | pkg/aliyun/fake/cas.go:92-147 | whatever others do, ids are not reused, names do not change, and the store stays consistent |
| Cas.DeleteConfirmed | internal/controller/retention.go:109-115 | success and NotFound both mean that the certificate is gone |
| Retries.RetryConvergence | internal/controller/upload.go:98-120 | after any sequence of failed, lost and interfered-with attempts, the one that succeeds leaves exactly one certificate of the announced name, and returns its id |
| Retries.UploadedOnce | internal/controller/upload.go:98-107 | if others leave the name alone, the material is stored at most once, and every success, early or late, names the same id, token honoured or not |
| Retries.UndisturbedRetrySucceeds | internal/controller/upload.go:278-294 | after a committed upload whose answers were lost, an undisturbed attempt succeeds if and only if the cloud honours the token or the certificate has not expired |
| Retries.CalmAttemptSucceeds | internal/controller/upload.go:98-112 | an attempt that nothing disturbs succeeds if the listing for the first domain shows every certificate of that name, token honoured or not |
| Retries.FoundByOwnName | internal/controller/upload.go:257-262 | a certificate is found by its own first name exactly as long as it has not expired |
| Retries.OnlyTakenNamesAreLookedUp | internal/controller/upload.go:98-107 | the look-up by name is made for a permanent error with one of the four codes that say the name is taken, and for no other |
| LedgerRuns.StepKeepsInv | internal/controller/upload.go:45-134 | every effect, also one computed from an outdated copy, keeps recorded ids, names, fingerprints, tokens and the write-ahead record consistent with the cloud |
| LedgerRuns.StepLosesExactly | internal/controller/upload.go:72-87 | an effect loses track of exactly the certificates it forfeits: by an overwritten record, an erased generation, a dropped record, a history replaced from an outdated copy, or the finalizer gone |
| LedgerRuns.LedgerSafety | internal/controller/upload.go:45-134 | in every run, a certificate of this resource that is in the cloud and that nothing in the status leads to was given up by one of the named kinds of step |
| LedgerRuns.NothingForfeitedNothingLost | internal/controller/upload.go:71-87 | a run that forfeits nothing loses nothing |
| LedgerRuns.OrderlyDeletionLeavesNothing | internal/controller/deletion.go:226-298 | if neither the removal of the finalizer nor any step before it gave something up, no certificate of this resource is in the cloud then or ever after |
| LedgerRuns.EarlierIsSound | internal/controller/upload.go:149-156 | every ledger of a run, however long superseded, stays consistent with the cloud |
| LedgerRuns.RecordClearedWithGeneration | internal/controller/upload.go:117-120 | outside deletion, the write that clears the write-ahead record also records the generation it announced |
| LedgerAccounts.Conservation | internal/controller/upload.go:125-133 | every generation ever current is, with multiplicity, in exactly one place: held, reclaimed or erased by the probe, but for what patches from outdated copies overwrote and brought back, which is booked as well |
| LedgerAccounts.HeldWasServed | internal/controller/upload.go:125-133 | whatever a ledger of a run holds became current in an earlier step of it |
| LedgerAccounts.HistoryStaysOrdered | internal/controller/upload.go:129-131 | if the times at which generations become current do not decrease along the run, current and history are newest first at every point of it |
| LedgerAccounts.SameIdIffSamePrefix | internal/controller/upload.go:98-107 | two recorded generations that are in the cloud share an id exactly when their fingerprints share the twelve characters, so a returning fingerprint makes current and history share one |
| Persistence.Store.Patch | internal/controller/status.go:51-54 | a status patch, computed from any copy, lands whole or not at all, extends the run by the effect it has, and answers with what is stored |
| Persistence.Store.ReadCached | internal/controller/aliyuncertificate_controller.go:139-143 | the copy a round starts from is any version the API server ever held |
| Persistence.Store.Upload | internal/controller/upload.go:98-99 | the upload the persisted record announces, with the commit logged even if the answer is lost |
| Persistence.Store.Reclaim | internal/controller/retention.go:105-115 | a Delete under the policy, for a generation that is retired when the call goes out, that is not the one the round serves, and that is the one the status calls current only if the round has superseded that |
| Persistence.Store.RemoveFinalizer | internal/controller/deletion.go:175-185 | the finalizer goes, which is on record; without abandonment, and if no maintenance followed a deletion round, only where that gives up no certificate |
| CertificateRound.Round.Refresh | internal/controller/upload.go:157-184 | copy and baseline both take the persisted ledger, and keep everything else |
| CertificateRound.Round.PatchPendingUpload | internal/controller/upload.go:199-208 | on success the record is persisted and in copy and baseline, on failure both are untouched |
| CertificateRound.Round.FindByName | internal/controller/upload.go:279-294 | finds the certificate of that name the listing shows, if there is one |
| CertificateRound.Round.UploadOrClaim | internal/controller/upload.go:98-112 | one attempt as specified for retries, including the look-up after a duplicate-name answer |
| CertificateRound.Round.EnsureUploaded | internal/controller/upload.go:45-134 | from a copy and a baseline of any age: if the generation advances, it is the one in the Secret, its id is the only certificate of its name, and the settling patch will leave exactly the ledger in memory; with an unchanged fingerprint nothing at all happens |
| CertificateRound.Round.Announce | internal/controller/upload.go:70-87 | the intent to upload this very material is persisted before anything is sent, with name, token, time and the first name of the spec at that moment; a standing one is left as it is; and nothing else is ever announced |
| CertificateRound.Round.SendUpload | internal/controller/upload.go:89-120 | what is sent is the material itself, under the recorded name and token; if nothing was stored under the name and nothing interferes, the id returned is of exactly that material |
| CertificateRound.Round.TakeUp | internal/controller/upload.go:62-133 | from a ledger just read: everything EnsureUploaded promises for an advance, and on any failure copy and baseline still agree |
| CertificateRound.Round.Advance | internal/controller/upload.go:125-133 | the superseded generation heads the history, the blank a probe left does not enter it, and the result may be settled |
| CertificateRound.Round.ProbeCAS | internal/controller/probe.go:34-70 | asks exactly if uploading is on, the current certificate has an id and has not expired, and the interval is over; looks by the recorded hint, else by the first name of the material, else by that of the spec; and erases the generation in memory exactly when that listing does not show it |
| CertificateRound.Round.PersistErasure | internal/controller/aliyuncertificate_controller.go:317-324 | from a copy of any age: the stored generation has lost id and fingerprint, and copy and baseline are what is stored, before the round goes on |
| CertificateRound.Round.ReclaimOldest | internal/controller/retention.go:99-118 | after success or NotFound the certificate of the oldest generation is gone, and what may be recorded or dropped is still so |
| CertificateRound.Round.DropExcess | internal/controller/retention.go:91-122 | without errors drops exactly as many as the policy allows; Deletes went out for exactly the dropped generations that have an id, oldest first, and every one was confirmed, but for the last one of a pass that failed |
| CertificateRound.Round.ReclaimOldGenerations | internal/controller/retention.go:72-123 | the same against the Bindings listed at the start, with two generations and a day for what the spec leaves open; nothing if uploading is off or the listing fails; and whatever a Delete went out for had reached the minimum age and was used by no Binding of the certificate, all of which had caught up |
| CertificateRound.SupersededIsHitIff | internal/controller/retention.go:76-98 | a pass of a round that supersedes the current generation deletes its certificate if and only if keepLast is 1 and every superseded generation passes the guards; a pass that fails midway does so under no other condition |
| CertificateRound.SupersededIsHit | internal/controller/retention.go:76-98 | and that happens: to a status of one generation that has reached the minimum age and that no Binding uses |
| CertificateRound.Round.EndSettled | internal/controller/aliyuncertificate_controller.go:339-340 | from an up-to-date copy the final patch leaves the ledger in memory, from an outdated one at most its remaining history and the time of the probe |
| CertificateRound.Round.ReconcileIssued | internal/controller/aliyuncertificate_controller.go:286-340 | from an up-to-date copy, a round that ends well has persisted the generation of the Secret it read, with a certificate unless it had been recorded without one, has asked the cloud if the probe was due, and leaves no more than keepLast generations unless the oldest is protected by the Bindings it listed; from an outdated copy it does the same or leaves the current generation as stored; wherever it stops, the trace is a run, and nothing younger than the minimum age was to be deleted; undisturbed, the current generation stays as it is exactly if it is the Secret's and the probe is not due or shows it; and the round does end well if no call fails, nobody else edits the certificates, and none of the wanted name is hidden from the listing for the first domain |
| CertificateRound.PassedIsRetired | internal/controller/retention.go:38-52 | what passes the three guards and has left the Secret is used by no Binding and can no longer be adopted by one |
| CertificateRound.OwedGeneration | internal/controller/retention.go:91-98 | every entry of the history a round leaves, from a copy of any age, has left the Secret, is not what the round read, and is the generation in force only if the round supersedes that |
| Retention.FilterReferencing | internal/controller/retention.go:56-68 | the Bindings that reference the certificate, in order |
| Retention.MayReclaim | internal/controller/retention.go:38-52 | a generation may go exactly if it has reached the minimum age, every Binding has caught up with its spec, and none has the fingerprint applied |
| Retention.TailIsLongest | internal/controller/retention.go:91-98 | the reclaimable tail is the longest suffix all of which passes the guards |
| Retention.DropCountExact | internal/controller/retention.go:76-80 | what is dropped is a reclaimable suffix, never takes current and history below keepLast, and stops short of it only at a protected generation |
| Retention.BlockedOldestBlocksNewer | internal/controller/retention.go:70-72 | age and lagging Bindings that block the oldest block everything newer |
| Retention.StoppingCostsSomethingIff | internal/controller/retention.go:70-72 | a newer generation that could go is passed over if and only if all Bindings have caught up, one uses the oldest, and some newer one is old enough and unused |
| Retention.StoppingDropsNothing | internal/controller/retention.go:91-98 | and then nothing is dropped, whatever is in excess |
| Surroundings.RecurredIff | internal/controller/retention.go:83-98 | the flag that exempts from reclaim safety is set by a sequence of moves if and only if one of them is a renewal that brings back a fingerprint the Secret held before |
| Surroundings.MovesKeepRetired | internal/controller/retention.go:83-98 | any interleaving of Binding rounds, edits and renewals leaves a retired generation retired, unless a fingerprint returns |
| Surroundings.MovesKeepTracked | internal/controller/binding_apply.go:143-148 | superseded fingerprints stay out of the Secret through any such interleaving |
| Surroundings.StepKeepsTracked | internal/controller/upload.go:129-132 | every effect on the ledger, from whatever copy, keeps superseded fingerprints apart from the one in the Secret, the one read and the one in force |
| Epochs.StepKeepsInStep | internal/controller/upload.go:129-132 | and so for all ledgers of a run at once |
| Epochs.StepKeepsEpoch | internal/controller/retention.go:72-123 | as long as no fingerprint returns, all ledgers with the same generation in force name the same certificates but for those that are gone, so a retention pass gives up nothing however old its copy |
| Epochs.EmptiedForfeitsNothing | internal/controller/deletion.go:226-257 | while only deletion is at work, whatever a copy of that time no longer leads to, the status does not either, so removing the finalizer gives up nothing |
| Coupling.RoundIsAMove | internal/controller/binding_apply.go:139-148 | what any Binding round does to observedGeneration and appliedFingerprint is one of the moves the reclaim proof allows |
| Teardown.Deletion.CleanupGenerations | internal/controller/deletion.go:238-257 | clears only ids confirmed gone, touches the current one only after all of history, and leaves none on success |
| Teardown.Deletion.CleanupPendingUpload | internal/controller/deletion.go:266-298 | after the record is dropped, a certificate of its name that this resource uploaded remains only if the listing omits it for the keyword used; and if nobody interferes, those of the name that remain are exactly the ones the listing omits |
| Teardown.LostUploadIsCleaned | internal/controller/upload.go:80-83 | a certificate whose upload was never answered goes in an undisturbed clean-up as long as it has not expired, if the first name of the spec at the time of the upload is one of its names, whatever the spec says by the time of the clean-up |
| Teardown.WrongKeywordLeavesCertificate | internal/controller/deletion.go:289-294 | so a certificate for a wildcard is left behind if the recorded hint is the name of a host |
| Teardown.Deletion.CleanUp | internal/controller/deletion.go:99-132 | goes on only once its progress is persisted and, unless the policy is other than Block and the grace period is over since the clean-up began, only with everything the copy recorded gone, and of what it announced only what the listing omits left; the status then records nothing exactly if the copy knew as much as it did; if no call fails, it goes on; and past the grace period no failure of the cloud holds it back |
| Teardown.Deletion.RemoveObjects | internal/controller/deletion.go:134-173 | goes on only when the Certificate is gone and no Secret of ours is left under the name in service, and deletes no other Secret and none that is not ours |
| Teardown.Deletion.ReconcileDelete | internal/controller/deletion.go:71-207 | from a copy of any age: a live Binding stops the round before anything is touched; if the finalizer is gone, Certificate and Secret are, only a Secret of ours was deleted, and, unless the clean-up was abandoned, which takes a policy other than Block and the grace period to be over since it began, what the copy recorded is gone, of what it announced at most what the listing omits is left, and the ledger is empty under the exact condition given; if no Binding is live and the Certificate is gone, the finalizer goes when no call fails, and past the grace period under another policy than Block also when the cloud fails |
| ClusterObjects.StaysClear | internal/controller/deletion.go:134-145 | once the Certificate is gone and the Secret with it, cert-manager cannot bring the Secret back |
| ClusterObjects.ExistingCertificateBringsSecretBack | internal/controller/deletion.go:134-136 | as long as the Certificate exists, a deleted Secret can be back at once |
| Lifecycle.RunsAreAccounted | internal/controller/aliyuncertificate_controller.go:136-148 | in every state the code can reach: lost certificates are accounted for, and none was lost to retention, unless a fingerprint returned or a deletion round wrote from an outdated copy; an orderly deletion leaves nothing; every Delete that took effect outside a deletion round is a recorded reclaim, and none hit a certificate in use or in service; current and history are newest first and distinct; the books balance until a deletion round begins; and nothing is held that never became current |
| Lifecycle.Operate | internal/controller/aliyuncertificate_controller.go:136-340 | any sequence of rounds, each from any version the cache may hold and cut short anywhere, reaches only such states, and deletes no Secret but its own; a fingerprint counts as returned exactly if one of the renewals that happened brought it back, so never if none of those to come does |
| Lifecycle.Maintenance | internal/controller/aliyuncertificate_controller.go:286-340 | whatever state it finds, it announces nothing but the material it read, under the first name of its spec, and deletes nothing before its minimum age; and if its copy is up to date, no call fails, nobody else edits the certificates and none is hidden under the name, the status ends up with the generation that was in the Secret, which is the one it had or one of this moment with that validity, with an id exactly if uploading is on |
| Lifecycle.Removal | internal/controller/deletion.go:71-207 | the finalizer never goes while a Binding in the last listing is in use; and if no call fails, nobody edits the certificates and the Certificate is gone, it goes exactly if none is |
| CertificateFront.NextWriteRepeats | internal/controller/issuer.go:58-83 | whatever the default flags say, resolution repeats the first issuer written, also after a crash before the pin |
| CertificateFront.ResolvesTo | internal/controller/issuer.go:44-83 | the issuer is that of the spec, else the pinned one, else that of the existing Certificate, else that of the flags, whichever has a name first, with kind Issuer and group cert-manager.io only where it leaves them empty |
| CertificateFront.Front.SecretNameConflict | internal/controller/aliyuncertificate_controller.go:462-473 | a conflict is exactly a present Secret that is not ours |
| CertificateFront.Front.SyncCertificate | internal/controller/aliyuncertificate_controller.go:187-233 | without an error, refuses exactly if the name is to change and a foreign Secret stands under the new one, and points the Certificate at it otherwise; with or without an error, at most one write, and no write turns the Certificate to a foreign Secret |
| CertificateFront.Front.Reconcile | internal/controller/aliyuncertificate_controller.go:159-243 | after a completed round the issuer resolved from spec, pin, existing Certificate and flags is pinned, and nothing but that was written; the wanted name is that of the spec or else the resource's with -tls; the guard holds exactly when the change was refused, and Ready is true only with the wanted name in effect; wherever it stops, the name only moved to one that was free or ours; and it stops early only at a failed call, without an issuer, or refused before there is a Certificate |
| CertificateFront.Operate | internal/controller/aliyuncertificate_controller.go:160-233 | over any rounds, crashes, flag changes, and, once the issuer is pinned, edits and deletions of the Certificate by others: as long as no spec names an issuer only one is ever written, and every name ever written was free or ours at that moment |
| Arbitration.LessIsStrictTotal | internal/controller/binding_conflict.go:35-40 | the order is total and strict for different uids |
| Arbitration.OlderComesFirst | internal/controller/binding_conflict.go:35-40 | the older Binding comes first, and of two of the same second the one whose uid is smaller at the first character in which they differ |
| Arbitration.PickWinner | internal/controller/binding_conflict.go:46-58 | picks the live candidate that is older than every other live one, or as old with the smaller uid, and none only if none is live |
| Arbitration.OneWinner | internal/controller/binding_conflict.go:46-58 | the winner depends only on who is live, not on the order of the list |
| Arbitration.NeverTwoWinners | internal/controller/binding_conflict.go:81-99 | two Bindings whose different views contain both never both take themselves for the winner |
| Arbitration.KeyNamesOneTarget | api/v1alpha1/aliyuncertificatebinding_types.go:168-184 | the key of a target is no other target's if and only if none of its fields has a slash |
| Arbitration.TargetKeyShape | api/v1alpha1/aliyuncertificatebinding_types.go:168-184 | type, region, bucket if there is one, and domain, joined with slashes |
| Arbitration.SlashesCollide | api/v1alpha1/aliyuncertificatebinding_types.go:53-58 | a family of targets the API accepts that are taken for one another |
| Sans.CoversIsTheRule | pkg/pki/sans.go:12-35 | the computed answer is the declarative rule of section 6.4.3 of RFC 6125 as coded, in both directions |
| Sans.CoversHost | pkg/pki/sans.go:12-35 | the loop computes it |
| Sans.Missing | pkg/pki/sans.go:38-60 | the uncovered required names, sorted, without duplicates up to case and trailing dot and in the spelling that comes first, none left out; empty exactly when all are covered |
| Protocols.SplitProtocol | pkg/provider/fc3/protocol.go:13-21 | the set of trimmed, upper-cased, non-empty entries |
| Protocols.ProtocolSatisfied | internal/controller/binding_observe.go:44-54 | whether one entry equals HTTPS up to case and blanks, unless nothing was asked for |
| Protocols.LayersAgree | internal/controller/binding_observe.go:44-54 | the generic layer and the provider agree on every protocol string |
| Protocols.WrittenProtocols | pkg/provider/fc3/provider.go:119-123 | what Apply writes satisfies the request, and what Cleanup writes leaves plain HTTP |
| ClientCache.IdentityNamesOneKey | pkg/aliyun/cache.go:25-27 | the identity of a key belongs to its own versions only if and only if none of its components has a slash |
| ClientCache.SlashesShareASlot | pkg/aliyun/cache.go:25-27 | a family of different keys, told apart by region and endpoint, with one identity |
| ClientCache.Cache.GetOrBuild | pkg/aliyun/cache.go:47-62 | over all calls: a client built for this identity and version, one entry per identity, and for a slash-free key, whatever else was asked, exactly what building now would give |
| Paging.PageExtends | pkg/aliyun/cas_sdk.go:160-165 | a page adds its entries to those before it and is short exactly when it is the last |
| Paging.FindUploaded | pkg/aliyun/cas_sdk.go:167-235 | fewer than 10000 orders are listed completely and in order in N/50+1 calls, otherwise it fails after exactly 200; what a failing or empty answer does |
| Pki.ParseCertificates | pkg/pki/bundle.go:81-103 | all certificates in order, other blocks skipped, an error for one that does not parse or for none |
| Pki.ParseBundle | pkg/pki/bundle.go:50-76 | succeeds exactly for a continuous chain with the fitting key, and keeps the chain |
| Pki.CertPEM | pkg/pki/bundle.go:217-224 | leaf first, then the intermediates |
| Pki.WrittenIsRecognised | pkg/pki/bundle.go:262-268 | the fingerprint computed from what was written is the fingerprint of the bundle |
| Pki.DNSNames | pkg/pki/bundle.go:202-214 | the alternative names, and the common name exactly once |
| Providers.CertRefInjective | pkg/provider/provider.go:47-52 | a reference names one certificate of one region, and is empty exactly when there is none to name |
| Providers.Observe | pkg/provider/fc3/provider.go:55-79 | what stands on the target at that moment, an unreadable certificate counting as none |
| Providers.ApplyFC3 | pkg/provider/fc3/provider.go:81-128 | a committed write leaves the certificate and a protocol that satisfies the request, and, undisturbed, everything else as it was read; the protocol changes only if HTTPS was asked for and missing, and then both protocols are on |
| Providers.ApplyOSS | pkg/provider/oss/provider.go:81-108 | a committed write leaves the non-empty reference and touches nothing else |
| Providers.CleanupFC3 | pkg/provider/fc3/provider.go:135-162 | a committed clean-up leaves no certificate and no HTTPS-only domain, and, undisturbed, everything else; the protocol changes only for a domain that had HTTPS alone, and then to HTTP alone |
| Providers.CleanupOSS | pkg/provider/oss/provider.go:113-132 | a committed clean-up takes the reference off the record and touches nothing else |
| Providers.Cleanup | pkg/provider/fc3/provider.go:135-162 | both shapes in the terms of the generic layer: a committed clean-up leaves nothing on the target that could be recognised |
| Providers.Cloud.UpdateCustomDomain | pkg/aliyun/fake/fc3.go:169-217 | an update without protocol is rejected; any other replaces protocol, echo and, as told, the certificate |
| Providers.Cloud.WriteCname | pkg/aliyun/fake/oss.go:142-175 | only the reference of the record changes |
| Fc3Sdk.CustomDomainFromSDK | pkg/aliyun/fc3_sdk.go:129-152 | the pass-through body carries everything uninterpreted and no certificate or key |
| Fc3Sdk.UpdateInputToSDK | pkg/aliyun/fc3_sdk.go:158-186 | protocol and certificate are set over a fresh copy, and the body that was passed in stays as it was |
| Fc3Sdk.ReadWriteWrite | pkg/aliyun/fc3_sdk.go:154-157 | two writes from one read both carry what was read |
| BindingRound.LoadedMaterial | internal/controller/binding_material.go:77-92 | what is loaded will be recognised on the target, and always has a name; id and name come from the certificate's status exactly if that speaks of the same material |
| BindingRound.WantedNotEmpty | internal/controller/binding_identity.go:89-102 | past the gates the identity that is compared is never empty |
| BindingRound.Binding.Prepare | internal/controller/aliyuncertificatebinding_controller.go:150-247 | a round reaches the target if and only if the certificate is issued, every live competitor is younger, or as old with a greater uid, its names cover the domain and both gates pass; every early end says why, and only the gates take Applied away |
| BindingRound.Binding.ApplyMaterial | internal/controller/aliyuncertificatebinding_controller.go:297-305 | the one write of a round, logged with the account bound in the status, the observation and the account it went to, which agree once there is one; the bound on writes holds through it, answer lost or not |
| BindingRound.Binding.NoteObserveError | internal/controller/binding_observe.go:71-115 | only a missing target takes Applied away |
| BindingRound.Binding.Decide | internal/controller/aliyuncertificatebinding_controller.go:270-312 | nothing is written under another account than the one bound or to a target that is as wanted; otherwise one write, which succeeds if nothing interferes; success records the identity and binds the account, failure records what stands on the target as drift, unless that is nothing, ours, or what was wanted |
| BindingRound.Binding.Reconcile | internal/controller/aliyuncertificatebinding_controller.go:104-313 | at most one write, and once an account is bound only to it and on an observation of it; the bound account never changes and is only ever set to the one observed; the only fingerprint recorded is the one in the Secret; the wanted material counts as changed exactly if it differs from what was wanted last; an undisturbed round that is admitted ends fenced, written or unchanged, exactly as account and target demand |
| BindingRound.Binding.UnbindTarget | internal/controller/binding_deletion.go:122-182 | unbinds only what the Binding recorded, only under the bound account, leaves account and record as they were, and leaves none of it on the target if nobody else touched that, which only the turns that passed can have done; if nothing fails and the target takes writes, it succeeds |
| BindingRound.Binding.ReconcileDelete | internal/controller/binding_deletion.go:49-114 | without Unbind, or if nothing was ever applied, the target is untouched; otherwise at most one write, an unbinding of what was recorded; account and record stay; giving up needs a policy other than Block and the grace period to be over since the clean-up began, and then no failure of the target holds the deletion back; and if nothing fails and the target takes writes, the finalizer goes |
| BindingRound.Operate | internal/controller/aliyuncertificatebinding_controller.go:229-312 | over any life, rounds and then deletion rounds: committed writes never exceed one plus the changes of the wanted material, the external changes and one for the unbinding; the wanted material changes no more often than consecutive rounds want different things, and the external changes are exactly the moves that passed and those among the events; once bound, the account stays and every write goes to it on an observation of it; and whatever is unbound was recorded as the Binding's own |
| BindingRound.WritesOnce | internal/controller/aliyuncertificatebinding_controller.go:229-312 | a Binding whose rounds all want the same and whose target nobody else touches writes at most once, whatever fails |
| BindingRound.Converges | internal/controller/aliyuncertificatebinding_controller.go:104-313 | undisturbed, one admitted round brings target and status to what it wants, and the next that wants the same writes nothing |

## Assumptions

* Fingerprints are 64 characters. Reclaim safety, distinctness and the harmlessness of outdated
  retention passes assume fingerprints that never return, up to the twelve characters names are made
  of. The flag `recurred` records the exception, and nothing of that is claimed after it; it is set
  exactly when a renewal among the moves of the cluster brings a fingerprint back.
* The clock does not run backwards between rounds of one resource, whose rounds do not overlap.
* A cached copy of the resource is some version the API server held before, however old, and not
  necessarily newer than the last one seen. The answer to a status patch replaces the copy in memory.
* One CAS region, answers that claim NotFound only when it is true, and other users of the account
  that hold no upload tokens of this resource.
* A Binding's `certificateRef` does not change, and a Binding round is one step between two calls of
  the certificate controller.
* Nobody else creates or deletes the Certificate before its issuer is pinned, and its check of a
  Secret's owner and the write that follows count as one step.
* A JSON merge patch behaves as section 2 of RFC 7396 says, and `client.MergeFrom` sends the patch
  described there.

## Left out

- Lifecycle.Operate: no round runs after the finalizer is gone, although an outdated cache may start one that fails at its first write
- Status.RoundTrip: conditions, mirrored issuance data and other status members are opaque, so what each of them says is not modelled here; Ready is modelled in CertificateFront and BindingRound
- Cas.CAS.Upload: an answer that repeats a known token may get lost as well, which the repository's executable cloud does not provoke
- Cas.CAS.FindUploaded: follows the measured keyword semantics noted in internal/controller/upload.go:252-258, not the name approximation of pkg/aliyun/fake/cas.go:149-164
- CertificateRound.Round.EnsureUploaded: one clock reading per round, in whole seconds; credential and client construction failures count as failures of the call
- CertificateFront.Front.Reconcile: reads of the Certificate are direct, and the rest of the desired spec (names, key, durations, templates) is not modelled
- BindingRound.Binding.Prepare: the view of the peers may be stale in any way, the certificate and the Secret are as read
- BindingRound.Binding.Reconcile: the read of the Binding that starts a round and the addition of its finalizer are not modelled
- Observation times, applied lag, events, metrics, log text and requeue intervals: no state that the properties depend on
- Uploads still on their way when a later one is sent, and locks around clock and defaults
- X.509 and PEM encoding, SHA-256, and the SDK beyond the two FC3 conversions
- Text outside ASCII in protocols and host names
- Error-code tables: their result classes are inputs
- Resource-policy script, flags, CRD validation, deep copies and deployment files
