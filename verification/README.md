# A model of the Weletic Shopify session protocol and its neighbours

The Shopify app keeps one offline session per shop and any number of online sessions in
a signed session service. Several processes work on them at once, over a network that
loses, delays and repeats messages, and a stale write must never replace a newer
credential. This project models the client of that service, the service itself, and five
smaller machines beside them, and proves what they promise.

## How it is laid out

**The session client.** `Contract.dfy` (with `Wrappers.dfy`) has the wire contract: observations, lease proofs
and counters carried as decimal strings. `SessionEntry.dfy` has the per-shop entry of an
operation: a class whose methods are the uninterrupted stretches of the source's methods
between two awaits, each proved to do exactly what a function on values says.
`SessionClient.dfy` interleaves those stretches. Its actions are one stretch each; the
environment picks their order, the clock readings and every reply. The log of requests,
the trace of online mutations, the successful exchanges, the actors and the cached loads
are kept as history.

- `ClientFence.dfy`: the lease fence, ownership and its loss.
- `ClientOnline.dfy`, `ClientRuns.dfy`: the invariant of online sessions, kept by every
  stretch. `ClientSafety.dfy`: what follows for every run.
- `ClientCache.dfy`: sessions that came from the cache.
- `MerchantVisit.dfy`: the merchant authenticator, from the verified browser token to the
  callback, over any work on the same client. `MerchantAuthentication.dfy`
  has its undisturbed run.

**The lease system.** `Acquisition.dfy` is the acquisition loop. `Coordinator.dfy` is the
service's coordination row and what each request does to it. `LeaseSystem.dfy` puts any number
of clients against one row. The network may process a request any number of times, at
any later moment or never, and may lose every reply. Revocation, installation changes, a
purge of the stored session and writers from before coordination interleave freely.
`SystemAcquisition.dfy` proves that the acquisition loop only makes moves of this system.
`ClientWire.dfy` and `SystemRuns.dfy` have the invariant, `SystemSafety.dfy` and, for the
online rows, `SystemOnline.dfy` the promises.

**The operation.** `OperationContext.dfy` is `runOperation` around the clients it acquires, with
its context as a class; `OperationSafety.dfy` has the promises, and `OperationNesting.dfy`
carries them over to nested and concurrent calls.

**The other machines.** `ReviewForm.dfy` and `ReviewFormSafety.dfy`: the open-review form.
`NonceCache.dfy`: the replay check. `ProxyObservation.dfy`: the deduplication of proxy
observations. `ImportFile.dfy`: chunked base64 as in section 4 of RFC 4648.
`ValueList.dfy`: the quoted-list input.

`dafny verify dfyconfig.toml` checks everything.

## What the proofs found

Some promises hold only under a condition. In each case the condition is proved exact or
the exception is proved to happen.

- A deadline that has passed can come back: the reply to a renewal sent before it restores
  ownership. Only a failure is final, and what counts as one is exact.
  (`OwnershipReturnsOnlyByRenewal`, `DeadlineIsNotAbsorbing`, `LossHasACause`,
  `FirstFailureIsFinal`)
- A client that passes its own ownership check is backed by the service, with 7 s to spare,
  exactly if its lease has been neither revoked nor released at the service; and two
  such clients never coexist. (`OwnersAreBackedExactlyWhen`, `OwnersExcludeEachOther`)
- Both exceptions happen. A revocation frees the lease while its holder still trusts its
  local deadline. A save that outlives its operation still passes the check after the
  release, while another operation holds the lease, and its write leaves. Operations that
  have not released exclude each other unless revoked. (`RevocationBreaksExclusion`,
  `ReleaseBreaksExclusion`, `OperationsExcludeEachOther`)
- A fresh publication never outlives any exchange of its token. A session object saved
  again is held to its own record, not to a later and shorter exchange; it respects them
  exactly when its own expiry respects the exchange kept under the token.
  (`ResaveRespectsExchangesExactlyWhen`, `ResaveIgnoresShorterExchange`)
- `runOperation` checks the leases pending when its body returned. Work still running can
  add one during that wait, which is not checked. The run that shows it keeps every
  acquisition to its 8 s. (`ResultMeansOwnership`, `LateLeasesAreNotChecked`)
- The replay check needs a TTL beyond twice the skew window; 720 s is enough, 600 s is not.
  (`ReplayIsPossibleExactlyWhen`)

## Model

| member | source | states |
|---|---|---|
| Contract.NextCounter | packages/shopify-app/app/coordinated-session-storage.server.ts:101-105 | a counter has a successor exactly if it matches the pattern, and the successor is one more as an integer, whatever its width |
| Contract.DecimalOfValue | packages/shopify-app/app/coordinated-session-storage.server.ts:101-105 | counters are canonical: the decimal string of a counter's value is that counter, so comparing strings compares integers |
| Contract.DecimalIsCounter | packages/shopify-app/app/coordinated-session-storage.server.ts:101-105 | the decimal of n is accepted as a counter iff n is below ten to the nineteenth |
| SessionEntry.Entry.constructor | packages/shopify-app/app/coordinated-session-storage.server.ts:463-473 | a new entry: owned, no renewal, empty maps, its deadline 45 s after the request that got the lease was started |
| SessionEntry.Entry.AssertOwned | packages/shopify-app/app/coordinated-session-storage.server.ts:256-259 | the check passes iff the entry is not lost and the deadline lies ahead |
| SessionEntry.Entry.DispatchRenewal | packages/shopify-app/app/coordinated-session-storage.server.ts:266-275 | a renewal leaves iff the entry is owned, and is then the one under way; nothing else changes |
| SessionEntry.Entry.RenewalSettled | packages/shopify-app/app/coordinated-session-storage.server.ts:276-286 | success counts the deadline from the start of that renewal, failure loses the entry, and either way no renewal is under way |
| SessionEntry.Entry.IdentityReceived | packages/shopify-app/app/coordinated-session-storage.server.ts:333-395 | the exchange is recorded iff the entry is still owned and the identity is admissible; otherwise the entry is lost |
| SessionEntry.Entry.RecordExchange | packages/shopify-app/app/coordinated-session-storage.server.ts:339-388 | which identities are admissible, and the record kept for the token: earliest expiry, a fresh unspent identity, the version seen when the request left |
| SessionEntry.Entry.PublicationBegun | packages/shopify-app/app/coordinated-session-storage.server.ts:586-629 | a publication begins iff every check passes; it takes a new version, raises the mutation flag and is clamped to its origin |
| SessionEntry.Entry.DeletionBegun | packages/shopify-app/app/coordinated-session-storage.server.ts:910-926 | an online deletion begins iff its first loaded version is known and current and no mutation is in flight, and is aimed at that version |
| SessionEntry.Entry.MutationEnded | packages/shopify-app/app/coordinated-session-storage.server.ts:659-667 | the flag falls in any case, and a failure loses the entry |
| SessionEntry.Entry.LoadCompleted | packages/shopify-app/app/coordinated-session-storage.server.ts:547-571 | a cached session is returned iff nothing moved its version, and only a first load sets the deletion target |
| SessionEntry.Entry.ActorReserved | packages/shopify-app/app/coordinated-session-storage.server.ts:677-716 | an exchange is reserved iff the session rests on it unchanged and it is unspent, and it is spent at once |
| SessionEntry.Entry.Acknowledged | packages/shopify-app/app/coordinated-session-storage.server.ts:851-865 | only a valid acknowledgement moves lease and snapshot; anything else loses the entry |
| ClientFence.StepMovesFence | packages/shopify-app/app/coordinated-session-storage.server.ts:861-889 | no action whatever changes lease, snapshot or the count of acknowledged mutations, except the reply to an offline mutation that is a valid acknowledgement |
| ClientFence.FenceRefinesCounter | packages/shopify-app/app/coordinated-session-storage.server.ts:861-889 | over every run: token and epoch never change, lease and snapshot agree on the revision, which is the acquired one plus the acknowledged mutations, and the observed epoch is the one acquired under before the first of them and the lease's own afterwards |
| ClientFence.StartIsFenced | packages/shopify-app/app/coordinated-session-storage.server.ts:452-473 | an admitted acquisition starts there, with an epoch one above the observed one |
| ClientFence.StepSendsOnlyOwned | packages/shopify-app/app/coordinated-session-storage.server.ts:256-288 | every request but a release leaves while the entry is owned; loss stays; only a positive reply to an unsettled renewal moves the deadline |
| ClientFence.LossIsAbsorbing | packages/shopify-app/app/coordinated-session-storage.server.ts:256-288 | from a lost entry, no run sends anything but a release, and no reply restores ownership |
| ClientFence.LossHasACause | packages/shopify-app/app/coordinated-session-storage.server.ts:261-399 | an action loses an entry iff it is a failed renewal, a heartbeat after the deadline, or a failed, ambiguous, refused or late outcome of an exchange, publication, deletion or offline write |
| ClientFence.FirstFailureIsFinal | packages/shopify-app/app/coordinated-session-storage.server.ts:261-399 | each of those outcomes loses the entry for the rest of every run, and nothing but a release leaves from then on |
| ClientFence.OwnershipReturnsOnlyByRenewal | packages/shopify-app/app/coordinated-session-storage.server.ts:276-288 | an entry not owned becomes owned by an action iff it was not lost and the action is the positive reply to a renewal sent less than 45 s before |
| ClientFence.DeadlineIsNotAbsorbing | packages/shopify-app/app/coordinated-session-storage.server.ts:266-280 | a run in which that happens |
| ClientSafety.MutationsTakeTurns | packages/shopify-app/app/coordinated-session-storage.server.ts:625-667 | at any moment of any run at most one publication or deletion that has begun has not ended, of one id or two |
| ClientSafety.CachedLoadOverlapsNothing | packages/shopify-app/app/coordinated-session-storage.server.ts:499-572 | a cached load returns only if no publication or deletion of its id was under way at any moment between its start and its return, started and finished ones included |
| ClientSafety.PublicationsAreOrdered | packages/shopify-app/app/coordinated-session-storage.server.ts:586-640 | a publication request leaves only if nothing of its id has begun since the request of an exchange that returned its token, or since the cached load or the last publication of the same session object, id and token |
| ClientSafety.DeletionTargetIsFirstLoaded | packages/shopify-app/app/coordinated-session-storage.server.ts:554-560 | every online deletion sends the digest first loaded in its operation |
| SystemOnline.RowIsDeletedExactlyWhen | apps/web/app/api/internal/shopify/sessions/route.ts:841-885 | in every reachable state, whatever is processed: a row not published over goes iff a deletion of its id is processed whose operation loaded this very version first and holds the lease live |
| SystemOnline.DelayedDeletionSparesOtherRows | packages/shopify-app/app/coordinated-session-storage.server.ts:909-945 | over every run, an online row stays unless it is published over or deleted by an operation that loaded this very version first, however late or often deletions arrive |
| ClientSafety.OneActorPerExchange | packages/shopify-app/app/coordinated-session-storage.server.ts:701-716 | the actors of a run used up pairwise distinct successful exchanges, parallel mints and repeated tokens included |
| ClientSafety.TokensNameOneUser | packages/shopify-app/app/coordinated-session-storage.server.ts:374-380 | all exchanges of a run that return one token agree on the user and the installation version |
| ClientSafety.ActorsAreBacked | packages/shopify-app/app/coordinated-session-storage.server.ts:675-759 | an actor names the user its exchange authenticated less than 60 s before; its session is live, was published by this operation with that exchange's token, as that user's, and not touched since, and nothing is being published or deleted |
| ClientSafety.PublicationsAreIdentified | packages/shopify-app/app/coordinated-session-storage.server.ts:594-624 | a publication is live when it begins and carries the evidence of its origin; a fresh one, that of every exchange of its token; a resave that rests on an exchange, that of one |
| ClientSafety.PublishedExpiryIsClamped | packages/shopify-app/app/coordinated-session-storage.server.ts:594-615 | a publication never outlives its origin; a fresh one never outlives any exchange recorded so far that returned its token |
| ClientSafety.KeptExpiryIsTheEarliest | packages/shopify-app/app/coordinated-session-storage.server.ts:381-388 | the expiry kept under a token is the earliest of its exchanges so far, so exchanging it again never extends it |
| ClientSafety.ResaveRespectsExchangesExactlyWhen | packages/shopify-app/app/coordinated-session-storage.server.ts:589-615 | a publication respects all recorded exchanges of its token iff it is no resave, or its session ends no later than the exchange kept under the token |
| ClientCache.CachedSessionNeverMints | packages/shopify-app/app/coordinated-session-storage.server.ts:677-690 | over every run, a session object obtained from the cache never gets an actor while it is saved only with the token it was loaded with |
| ClientCache.CachedLoadIsCachedOnly | packages/shopify-app/app/coordinated-session-storage.server.ts:561-571 | every cached load leaves its object in that state, whatever the stretch is given |
| MerchantVisit.CallbackHasVerifiedActor | packages/shopify-app/app/merchant-authentication.server.ts:33-64 | over every run, the callback has an actor for the verified shop and user, fresh, minted by this operation from an exchange it sent, which named this user and backs no other actor |
| MerchantVisit.CallbackStartsOwned | packages/shopify-app/app/merchant-authentication.server.ts:55-64 | the callback starts in the stretch that mints its actor, while the operation owns its lease |
| MerchantVisit.UndisturbedVisitServes | packages/shopify-app/app/merchant-authentication.server.ts:33-64 | with prompt replies the callback is reached, with an actor for the user the provider authenticated |
| MerchantAuthentication.ResaveIgnoresShorterExchange | packages/shopify-app/app/coordinated-session-storage.server.ts:589-615 | a run in which a resaved session outlives a later exchange of its token |
| Acquisition.Acquire | packages/shopify-app/app/coordinated-session-storage.server.ts:401-473 | the loop computes the specified acquisition for every clock, every snapshot and every answer |
| Acquisition.AcquisitionIsDisciplined | packages/shopify-app/app/coordinated-session-storage.server.ts:401-451 | at most five requests leave, each within 8 s, each but the last answered lease_busy and none after any other answer; success keeps the first observation up to its epoch |
| Acquisition.AcquiredEntryIsOwned | packages/shopify-app/app/coordinated-session-storage.server.ts:402-473 | an acquired entry has at least 37 s of ownership left when the acquisition returns |
| SystemAcquisition.AcquisitionAsks | packages/shopify-app/app/coordinated-session-storage.server.ts:401-440 | whatever happens in between, each request of the loop is a move of the lease system, which records it as the loop does |
| SystemAcquisition.AcquisitionOpens | packages/shopify-app/app/coordinated-session-storage.server.ts:426-473 | and the client that a success opens there has the loop's own entry |
| Coordinator.CountersAreRead | apps/web/lib/weletic/shopify/session-coordination.ts:48-57 | every counter the service can hold is read back from its decimal string |
| Coordinator.AcquireChangesOwnerOnce | apps/web/lib/weletic/shopify/session-coordination.ts:145-191 | a granted acquisition is a replay, or a new epoch taken from a row that was free; the answer names the row's owner, epoch and revision |
| Coordinator.FreeRowIsGranted | apps/web/lib/weletic/shopify/session-coordination.ts:145-191 | a row nobody owns is given to whoever asks with what it shows |
| Coordinator.OwnerWrites | apps/web/lib/weletic/shopify/session-coordination.ts:231-250 | a live owner's write under the current observation is accepted, one revision on |
| Coordinator.ReleasedTokenStaysOut | apps/web/lib/weletic/shopify/session-coordination.ts:213-228 | a released lease is never reopened by replaying its acquisition |
| ClientWire.StepKeepsWired | packages/shopify-app/app/coordinated-session-storage.server.ts:831-869 | every request carries the lease's token and epoch, and an offline write an observation under which its own session object was recorded, with the properties it held then |
| SystemRuns.StepKeepsMargin | packages/shopify-app/app/coordinated-session-storage.server.ts:261-288 | overlapping renewals settling in any order never move a local deadline to within 7 s of the service's own |
| SystemSafety.OwnersAreBackedExactlyWhen | packages/shopify-app/app/coordinated-session-storage.server.ts:256-288 | in every reachable state, a client that passes the ownership check, released or not, has a live lease at the service with 7 s to spare iff its lease has been neither revoked nor released there; the latter takes its own release |
| SystemSafety.OwnersExcludeEachOther | packages/shopify-app/app/coordinated-session-storage.server.ts:256-288 | two clients whose leases have been neither revoked nor released at the service never both pass the ownership check |
| SystemSafety.OperationsExcludeEachOther | packages/shopify-app/app/coordinated-session-storage.server.ts:205-239 | if two clients that have not sent their release both pass it, one has been revoked |
| SystemSafety.RequestsLeaveUnderLiveLeases | packages/shopify-app/app/coordinated-session-storage.server.ts:313-329 | whatever happens next in a reachable state, any request but a release, offline writes and the exchange with the provider included, leaves while the service holds the lease live for its sender iff that lease has been neither revoked nor released there |
| SystemSafety.NoLostUpdate | packages/shopify-app/app/coordinated-session-storage.server.ts:775-871 | every accepted offline write of an object with a recorded observation names that object, and replaced exactly the properties it was recorded with under that observation, late and overtaken writes included |
| SystemSafety.EachVersionIsReplacedOnce | apps/web/lib/weletic/shopify/session-coordination.ts:231-250 | no two accepted mutations were made from the same observation, however often requests are processed |
| SystemSafety.RecordedVersionsWereStored | packages/shopify-app/app/coordinated-session-storage.server.ts:761-773 | what a session object is recorded as is what the service stored under that digest |
| SystemSafety.FreeLeaseIsAcquired | apps/web/lib/weletic/shopify/session-coordination.ts:145-191 | from every state with a free row, an acquisition can succeed at once |
| SystemSafety.FreshWriteIsAccepted | apps/web/app/api/internal/shopify/sessions/route.ts:466-500 | a write under a lease just acquired is accepted and stored, one revision on |
| SystemSafety.RevocationBreaksExclusion | apps/web/lib/weletic/shopify/session-coordination.ts:108-125 | a run in which a revocation, and no release, leaves two operations passing the check |
| SystemSafety.ReleaseBreaksExclusion | packages/shopify-app/app/coordinated-session-storage.server.ts:831-865 | a run in which a save that outlived its operation passes the check after its lease was released and taken by another, no revocation involved, and its write leaves |
| OperationContext.Context.Entry | packages/shopify-app/app/coordinated-session-storage.server.ts:484-497 | an acquisition starts iff the context is open and none has started for the shop |
| OperationContext.Context.CheckAndClose | packages/shopify-app/app/coordinated-session-storage.server.ts:211-216 | the loop finds every awaited lease owned iff all are, and the context closes either way |
| OperationContext.Context.StopHeartbeats | packages/shopify-app/app/coordinated-session-storage.server.ts:217-223 | once all acquisitions have settled, every heartbeat stops in one stretch |
| OperationContext.Enter | packages/shopify-app/app/coordinated-session-storage.server.ts:205-209 | a nested call in an open operation gets that operation and owns nothing |
| OperationNesting.OnlyOutermostCallCloses | packages/shopify-app/app/coordinated-session-storage.server.ts:205-217 | over every run of nested, concurrent and detached calls, exactly one call owns each operation; its body ends with that call alone, and until then it is open and has released nothing |
| OperationNesting.LeasesAreReleasedByTheirCall | packages/shopify-app/app/coordinated-session-storage.server.ts:217-234 | however calls nest, each lease is released at most once, once by the end, and not before the call that opened its operation has ended |
| OperationSafety.EveryLeaseIsReleasedOnce | packages/shopify-app/app/coordinated-session-storage.server.ts:205-239 | over every run, each shop is acquired at most once, and each lease gets one release by the end, never two, and none before the close |
| OperationSafety.NothingIsAcquiredAfterClose | packages/shopify-app/app/coordinated-session-storage.server.ts:484-497 | after the close no run starts an acquisition |
| OperationSafety.ResultMeansOwnership | packages/shopify-app/app/coordinated-session-storage.server.ts:211-216 | a result is returned iff every lease asked for while the body ran is held and owned; if none was asked for later, those are all |
| OperationSafety.AcquisitionsKeepToTheirBudget | packages/shopify-app/app/coordinated-session-storage.server.ts:401-473 | what the operation assumes of a successful acquisition is what the acquisition loop keeps to: an entry counted from a request that left, and was answered, within 8 s |
| OperationSafety.LateLeasesAreNotChecked | packages/shopify-app/app/coordinated-session-storage.server.ts:211-217 | a run, within those bounds, that returns a result with a later lease lost |
| ReviewForm.Form.Proceeds | packages/shopify-app/app/open-reviews-form.ts:93-101 | the loop sends the first photo without a receipt, or the review with all receipts |
| ReviewForm.Form.Sends | packages/shopify-app/app/open-reviews-form.ts:89-92 | nothing is sent by a busy, completed or empty form |
| ReviewForm.Form.Fails | packages/shopify-app/app/open-reviews-form.ts:104-116 | which failures forget the submission and which keep it for a retry |
| ReviewForm.Form.PhotoAnswered | packages/shopify-app/app/open-reviews-form.ts:95-98 | a receipt is kept and sending goes on; anything else fails |
| ReviewForm.Form.ReviewAnswered | packages/shopify-app/app/open-reviews-form.ts:101-103 | a received review completes the form; anything else fails |
| ReviewForm.Form.Submitted | packages/shopify-app/app/open-reviews-form.ts:119-136 | a submission is drafted iff the form is free and the input and files are acceptable |
| ReviewForm.Form.PhotoRead | packages/shopify-app/app/open-reviews-form.ts:136-144 | files are read in order before anything is sent; an unreadable one drops the draft |
| ReviewFormSafety.AtMostOneReview | packages/shopify-app/app/open-reviews-form.ts:89-145 | over every run, all review requests not explicitly rejected carry one identifier and one body, media included |
| ReviewFormSafety.AtMostOneReviewIsStored | packages/shopify-app/app/open-reviews-form.ts:89-145 | a store with one review per identifier keeps at most one of them, whichever it takes and however often |
| ReviewFormSafety.PayloadsAreFrozen | packages/shopify-app/app/open-reviews-form.ts:129-144 | requests under one submission or upload identifier are equal, rejected ones included |
| ReviewFormSafety.MediaBelongToTheReview | packages/shopify-app/app/open-reviews-form.ts:93-99 | every medium of a review is a receipt of a photo sent for that submission |
| ReviewFormSafety.NothingFollowsReceipt | packages/shopify-app/app/open-reviews-form.ts:89-103 | nothing leaves a completed form |
| NonceCache.Verifier.RecordNonce | packages/shopify-app/app/weletic-api.server.ts:189-207 | the sweep removes exactly the expired entries, and an identifier is recorded iff no running entry has it |
| NonceCache.Verifier.VerifyRequest | packages/shopify-app/app/weletic-api.server.ts:209-284 | a request touches the cache only after every other check |
| NonceCache.CacheMirrorsHistory | packages/shopify-app/app/weletic-api.server.ts:189-207 | at any later moment the cache has a running entry for an identifier iff some acceptance of it is less than the TTL old |
| NonceCache.VerdictsAreExact | packages/shopify-app/app/weletic-api.server.ts:189-284 | over every run, a request is accepted iff it is valid on arrival and no acceptance of its identifier less than the TTL ago stands against it |
| NonceCache.AcceptedAtMostOnce | packages/shopify-app/app/weletic-api.server.ts:182-284 | with a TTL beyond twice the skew, one signed timestamp and identifier is accepted once at most, however far apart |
| NonceCache.ReplayIsPossibleExactlyWhen | packages/shopify-app/app/weletic-api.server.ts:182-284 | a replay is accepted in some run iff the TTL is at most twice the skew; the default is beyond it |
| ProxyObservation.Observations.Observe | packages/shopify-app/app/app-proxy-observation.server.ts:37-71 | the sweep removes exactly the entries neither in flight nor cooling down, and then the verdict |
| ProxyObservation.Observations.Settle | packages/shopify-app/app/app-proxy-observation.server.ts:57-70 | a POST that comes back starts the cooldown of its key iff it is still the one in flight |
| ProxyObservation.TableIsBounded | packages/shopify-app/app/app-proxy-observation.server.ts:46-49 | at most 512 keys in every run |
| ProxyObservation.OutstandingPostIsKept | packages/shopify-app/app/app-proxy-observation.server.ts:38-49 | an outstanding POST keeps its entry and is the only one of its key |
| ProxyObservation.PostsAreSpaced | packages/shopify-app/app/app-proxy-observation.server.ts:43-70 | between two POSTs of a key the first has come back, 5 s before if it succeeded and 1 s if it failed |
| ProxyObservation.DeferredOnlyForReason | packages/shopify-app/app/app-proxy-observation.server.ts:38-49 | a request starts a POST iff those rules allow it and the swept table has room |
| ImportFile.EncodeInChunks | packages/shopify-app/app/merchant-import-file.ts:25-32 | joining the encodings of 24 KiB chunks is the encoding of the whole |
| ImportFile.Prepare | packages/shopify-app/app/merchant-import-file.ts:6-42 | a file is prepared iff format and sizes are right, and then decodes to the bytes read, within the allowance |
| ImportFile.DecodeOfEncode | packages/shopify-app/app/merchant-import-file.ts:25-32 | every byte sequence is decoded back from its base64 |
| ImportFile.EncodeOfDecode | packages/shopify-app/app/merchant-import-file.ts:25-32 | and only encodings decode |
| ImportFile.EncodedLength | packages/shopify-app/app/merchant-imports-action.server.ts:26-29 | four symbols for every three bytes begun |
| ImportFile.HexIsInjective | packages/shopify-app/app/merchant-import-file.ts:36-38 | different digests read differently |
| ValueList.ParseCsvLikeValues | packages/ui/src/multi-value-input.tsx:17-45 | the loop yields the trimmed non-empty fields of the split at separators outside quotes, CR LF or not |
| ValueList.ParsedValuesAreClean | packages/ui/src/multi-value-input.tsx:17-45 | every input yields only trimmed, non-empty, quote-free values |
| ValueList.WriteThenParse | packages/ui/src/multi-value-input.tsx:13-45 | quoting any list of such values and joining it by any mixture of separators parses back to the list |
| ValueList.ParseIsStable | packages/ui/src/multi-value-input.tsx:13-45 | from any text, writing what was parsed and parsing again changes nothing |
| ValueList.AddValues | packages/ui/src/multi-value-input.tsx:91-103 | the present values, then the normalized new ones, cut at the cap |
| ValueList.Deduplicate | packages/ui/src/multi-value-input.tsx:106-113 | the loop keeps each value at its first place |
| ValueList.DeduplicationKeepsValues | packages/ui/src/multi-value-input.tsx:105-113 | the same values, none twice |
| ValueList.DeduplicationKeepsOrder | packages/ui/src/multi-value-input.tsx:105-113 | in the order of their first occurrences |
| ValueList.DistinctValuesStay | packages/ui/src/multi-value-input.tsx:91-113 | values that were distinct stay in front, untouched, whatever is added |

## Left out

- Time: milliseconds are integers, and one clock serves clients and service. The 7 s margin is what remains for clock drift.
- Access tokens and lease tokens stand for themselves or their SHA-256 digest, which is taken to tell them apart; so is the digest of a stored payload.
- The patterns of shop and session identifiers, `findSessionsByShop`, abort signals, the bounded reading of response bodies and HTTP itself: a failed, timed-out or malformed reply is one case.
- The schema checks of a stored online row (its app, shop and payload binding) are one flag; the comparison of a stored session with the session object before minting is the reply that confirms it. The row a cached load is given, its evidence, token and expiry are the environment's choice.
- An SDK session is read as the fields it holds in one stretch. They may change between stretches, but its identifier does not: the SDK fixes it when it constructs the object.
- The merchant authenticator starts from a verified token: the verification of the bearer token and the route check before it are not part of this model, and the session its exchange returns is whatever the SDK hands back.
- The online rows of the service are kept as payload digests; moves of the rest of the application may replace any of them.
- A class `Entry` and its methods are single-threaded stretches; the interleaving is proved on values in `SessionClient.dfy`, where a promise is a task that waits for a numbered renewal or a reply.
- The lease system lets an acquisition send requests more freely than the loop in `Acquisition.dfy` does, and models one shop.
- In `OperationNesting.dfy` each operation reads a clock of its own, and which operation surrounds a call is any that has been opened.
- The erasure of a shop's coordination row by the compliance worker: the installation is blocked from then on.
- `runInstalledOperation` (a renewal and a generation check around the callback) would add no harder property.
- The service's checks beyond the row (the store's lifecycle, the legacy bootstrap, encryption) are one flag of the environment.
- ClientCache.CachedSessionNeverMints: a session object that is saved with another token is a fresh sign-in and is not covered.
- The review form's markup, its languages and the preparation of its policy from the gateway's reply: the policy is taken as given once.
- Strings are sequences of characters; Unicode normalisation and UTF-16 surrogates are not modelled.
