# NanoMDM: verified model

NanoMDM is an Apple MDM server. This project models, in Dafny, the parts of it that keep hard state, and proves what they
promise:

* the command queue of the key-value backend, a doubly linked list whose pointers are string keys of one shared bucket, and
  the enqueue / report / fetch / clear protocol on top of it (`Strings`, `QueueKeys`, `QueueList`, `QueueMachine`,
  `QueueProtocol`, `KvQueue`, `KvLinks`, `KvFetch`, `KvRuns`, `KvBackend`);
* the relational command queue of the MySQL backend with and without deletion of finished commands, and its simulation by
  the same abstract machine (`SqlQueue`, `QueueBackends`);
* the APNs fan-out: the feeder, worker, closer and collector protocol as a transition system over every interleaving
  (`PushWorkers`), the push service that groups pushes by topic and hands answers back by enrollment id (`PushByIds`), and
  the provider cache guarded by stale tokens (`ProviderCache`);
* the enrollment life cycle on the key-value buckets, the migration export and its replay, and the cascade to user channels
  (`Options`, `Enrollment`, `EnrollKeys`, `KvEnroll`, `KvEffects`, `KvLifecycle`, `KvMigration`,
  `KvRoundTrip`, `KvExportOrder`, `KvExport`, `KvCascade`, `KvEnrollBackend`), and the same life cycle on the MySQL tables (`SqlEnroll`);
* the binding of client certificates to enrollments (`CertAuth`);
* the merge of enqueue and push answers into an API result and its outcome code (`ApiOutcome`).

Each operation that updates state is a method of a class (`KvBackend.LinkedQueue`, `KvBackend.KV`, `KvEnrollBackend.KV`,
`SqlQueue.MySQLStorage`, `SqlEnroll.MySQLStorage`, `ProviderCache.PushCertBucket`, `ProviderCache.PushService`,
`CertAuth.CertAuthBucket`, `CertAuth.Middleware`, `ApiOutcome.APIResult`), proved against a function of the state before it.
The main results are lemmas about those functions over all inputs, all reachable states or all runs.

Where the code does not keep what its name or its comments say, the model follows the code, a lemma names a failing case, and
a lemma says exactly when the code does keep it:

* `unlink` of the tail of a longer list leaves the previous item's next key in place, so the tail is delivered again
  (`UnlinkTail`, `TailUnlinkedTwiceLosesQueue`); `unlink` of an id that is not in the list, as by a repeated or late report, can
  empty the list or bend its ends (`UnlinkStranger`, `LateReportHidesQueue`). `UnlinkExact` gives the condition for every id,
  `ReportRefines` lifts it to the bucket, and the variant named Repaired, which also deletes that next key, gets every queued
  command right;
* an enqueue that names an enrollment twice links the command to itself, so that every walk ends if and only if it names each
  once (`WalksEndExactly`). A clear returns even then (`ClearEmpties`); `ReturnsExactly` and `EndsExactly` say when a fetch
  does, on any bucket, and `RepeatedIdReturns` what that means after such an enqueue;
* `StepExact` says of every call whether it keeps the bucket in step with the queue machine; `StepLinked` and `RunLinked` say
  what holds on all runs, in step or not;
* a report on a UUID that was never stored leaves status and report keys that a later command of that UUID meets; `StepLinked`
  shows that nothing else does;
* a certificate stored between the three reads of another call is overlooked for good: the old one is cached under the new token
  (`TornReadStays`). `CacheAgreesWithStore` and `ConsistentExactly` say exactly when a cached provider is consistent;
* `StoreAuthenticate` and `Disable` in the key-value backend promise to drop the tallies of user channels and to disable them,
  but the ids they compute are the key prefix instead of what follows it (`ChannelSurvives` is a run). `CascadeExact` and
  `TallyCascadeExact` show that they change no channel, `RepairedCascade` and `RepairedTallyCascade` what slicing the suffix does;
* two enrollments that share a push token lose one of the two answers (`NoIdLostExactly`), and two pushes that share a token
  make the concurrent and the serial provider differ exactly when APNs answers them differently (`RefinesSerialIff`);
* with warn-only or allow-duplicate certificate authentication an enrollment can take another's certificate
  (`NewEnrollmentOwned` says exactly when);
* outcome codes count keys, so the complete failure of a list that repeats an id reads as partial success
  (`RepeatedIdHidesFailure`, exactly when in `OutcomeExact`). The key-value backend files enqueue errors under the command UUID
  instead of the enrollment id, which can hide a complete failure and can also invent one (`KvDistinctExact`, `KvOutcomeExact`).

`dafny verify dfyconfig.toml` checks the whole project.

## Model

| member | source | states |
|---|---|---|
| QueueKeys.DecodeEncode | storage/kv/queue_ll.go:30-36 | every queue-head, item and command key can be read back from the string it is stored under, whatever the enrollment id contains, if the command UUID has no separator |
| QueueKeys.LayoutCollisionFree | storage/kv/kv.go:20-22 | two such keys share a string exactly when they are the same key: enrollments, commands and purposes never collide |
| QueueKeys.DottedUuidCollides | storage/kv/queue_ll.go:34-36 | with a separator in a UUID two enrollments do share an item key |
| QueueList.WalkUnique | storage/kv/queue_ll.go:39-99 | a bucket represents at most one sequence per queue |
| QueueList.UnlinkMember | storage/kv/queue_ll.go:119-188 | as written, unlinking an item other than the tail of a longer list leaves exactly the list without it, with first, last and both link directions in agreement |
| QueueList.UnlinkTail | storage/kv/queue_ll.go:155-161 | unlinking the tail of a longer list moves `last` but the walk from `first` still visits the removed item |
| QueueList.UnlinkTailBreaks | storage/kv/queue_ll.go:155-161 | the bucket then represents no list at all |
| QueueList.TailUnlinkedTwiceLosesQueue | storage/kv/queue_ll.go:131-140 | acknowledging that tail a second time drops every other item |
| QueueList.UnlinkStranger | storage/kv/queue_ll.go:131-140 | unlinking an id that has no link keys takes the only-item branch and empties the list |
| QueueList.UnlinkExact | storage/kv/queue_ll.go:119-188 | `unlink` of any id leaves exactly the list without it if and only if: the id is linked and not the tail of a longer list; or it is not linked and its leftover keys, if any, name the end or the neighbours that are there already |
| QueueList.UnlinkRepairedStranger | storage/kv/queue_ll.go:119-188 | for an id that is not linked the repaired variant is right under the same condition |
| QueueList.UnlinkRepairedMember | storage/kv/queue_ll.go:119-188 | the repaired variant removes exactly the named item wherever it is |
| QueueList.EnqueueExact | storage/kv/queue_ll.go:190-218 | `enqueue` appends, and leaves a list if and only if the id was not linked already |
| KvQueue.UnlinkTouches | storage/kv/queue_ll.go:119-188 | unlinking changes no key of another queue, command, status or report |
| KvQueue.ReportRefines | storage/kv/queue.go:22-54 | storing a report on any command, queued, late or never stored, keeps the whole bucket (every queue, command, result) in step with the abstract queue machine if and only if the unlink is right |
| KvQueue.QueuedReportRefines | storage/kv/queue.go:22-54 | for a queued command: if and only if it does not complete the tail of a longer queue; with the repaired unlink always |
| KvLinks.UnusedUuidClean | storage/kv/queue.go:110-115 | on a linked bucket a UUID that passes the freshness check has no link key in any queue and heads none, and no result key either unless a report named an unknown UUID |
| KvLinks.UnlinkLinked | storage/kv/queue_ll.go:119-188 | `unlink` as written, of any id, keeps every link key naming stored commands and leading to none that is older (`strict`: to newer ones only) |
| KvLinks.WalkExists | storage/kv/queue.go:58-68 | where links lead to newer commands only, following next keys from the head comes to an end |
| KvQueue.WalksEndExactly | storage/kv/queue.go:128-133 | after a new command is enqueued, the walks over all queues end if and only if no enrollment was named twice, in whatever places of the list |
| KvQueue.RepeatedIdEndless | storage/kv/queue.go:128-133 | the walk over such a queue goes over the old items to the command, which is its own successor |
| KvQueue.ClearEmpties | storage/kv/queue_ll.go:221-245 | on every bucket, cycles included, `clear` returns, only deletes, and leaves an empty list |
| KvFetch.TrailExists | storage/kv/queue.go:58-68 | on every bucket, following next keys stops after, or comes back into, a finite trail |
| KvFetch.ReturnsExactly | storage/kv/queue.go:64-78 | on every bucket a fetch returns if and only if its trail comes to an end or holds a command that is not skipped |
| KvRuns.EndsExactly | service/nanomdm/service.go:230-263 | on every bucket a report-and-fetch returns if and only if it is no deferral, or the trail ends or holds a command not deferred |
| KvRuns.RepeatedIdReturns | storage/kv/queue.go:64-78 | after an enqueue that names an enrollment twice a fetch there returns if and only if some command queued there is not skipped |
| KvRuns.NamedOnceEnds | storage/kv/queue.go:22-138 | over every run whose enqueues name each enrollment at most once, every call returns |
| KvRuns.StepLinked | storage/kv/queue.go:22-138 | every enqueue, report and clear, as written or repaired, whatever the report names and however often an enqueue names an enrollment, keeps the bucket linked; result keys without a stored command appear exactly when a report names one that was never stored |
| KvRuns.RunLinked | storage/kv/queue.go:22-138 | the same over every run |
| KvRuns.FreshIsFresh | storage/kv/queue.go:110-133 | from the empty bucket, over every run: what the freshness check admits has no leftover link keys, nor result keys if all reports named stored commands |
| KvRuns.StepExact | storage/kv/queue.go:22-138 | a call keeps the bucket in step with the machine if and only if: an enqueue of a new command names no enrollment twice; the unlink of a report, whatever it names, is right |
| KvRuns.AnswerExact | service/nanomdm/service.go:230-263 | a call that keeps it in step returns and is answered as the machine answers |
| KvRuns.RunRefines | service/nanomdm/service.go:230-263 | over every run of such calls, late reports and reports on unknown commands included, every call returns and all answers are the machine's |
| KvRuns.RecordsFromEmpty | storage/kv/queue.go:36-43 | over every run from the empty bucket, in step or not, it holds for each enrollment and command the status and bytes of the last report, and each command with the request type and bytes it was first enqueued with |
| QueueMachine.RecordsKept | storage/kv/queue.go:110-125 | the same of the queue machine |
| KvRuns.LegalRunRefines | service/nanomdm/service.go:230-263 | in particular over runs whose reports name queued commands: with the repaired unlink all of them, as written those that complete no tail of a longer queue |
| KvRuns.EmptyStoreRepresented | storage/kv/queue.go:22-138 | the empty bucket is the empty machine, so run theorems start there |
| KvQueue.CommandStoredRefines | storage/kv/queue.go:117-125 | storing a new command keeps the bucket in step and leaves the command unlinked everywhere |
| KvQueue.EnqueueRefines | storage/kv/queue.go:110-138 | a new command is appended to exactly the queues of the enrollments named, the rest of the bucket in step, if and only if none is named twice |
| KvQueue.ClearRefines | storage/kv/queue.go:103-108 | clearing empties one enrollment's queue and keeps the rest of the bucket in step, stale keys included |
| KvQueue.LateReportHidesQueue | storage/kv/queue_ll.go:221-245 | a failing case: after a clear, a late report on the old tail makes everything enqueued next unreachable |
| KvBackend.LinkedQueue.Unlink | storage/kv/queue_ll.go:119-188 | the bucket afterwards, key by key, on every branch |
| KvBackend.LinkedQueue.UnlinkRepaired | storage/kv/queue_ll.go:119-188 | the bucket after the repaired variant |
| KvBackend.LinkedQueue.Enqueue | storage/kv/queue_ll.go:190-218 | the bucket afterwards |
| KvBackend.LinkedQueue.Clear | storage/kv/queue_ll.go:221-245 | on every bucket the loop ends, with the bucket `ClearEmpties` and `ClearRefines` speak of |
| KvBackend.KV.StoreCommandReport | storage/kv/queue.go:22-54 | Idle changes nothing, an empty UUID is refused, any other report stores its result and unlinks unless it was NotNow |
| KvBackend.KV.RetrieveNextCommand | storage/kv/queue.go:58-99 | whenever the fetch returns (`ReturnsExactly`), the first command that is not skipped, or an error if that command is not stored |
| KvBackend.KV.ClearQueue | storage/kv/queue.go:103-108 | the bucket afterwards, on every bucket |
| KvBackend.KV.EnqueueCommand | storage/kv/queue.go:110-138 | a stored UUID is refused without change, otherwise the command is stored and linked to each id in turn |
| KvBackend.KV.CommandAndReportResults | service/nanomdm/service.go:230-263 | for any report on any bucket on which the call returns (`EndsExactly`), the bucket and the reply the run theorems speak of |
| KvBackend.KV.Serve | service/nanomdm/service.go:230-263 | for any run whose fetches return, bucket and replies are those of `StepExact`, `RunRefines`, `RunLinked` and `NamedOnceEnds` |
| QueueProtocol.Conservation | storage/kv/queue.go:22-138 | over any legal run, what was queued plus what got enqueued is what departed plus what is still queued, with multiplicity |
| QueueProtocol.OrderKept | storage/kv/queue.go:22-138 | over any legal run, with deferrals, the queue is the enqueue order minus what departed |
| QueueProtocol.ExactlyOnce | storage/kv/queue.go:22-138 | from the empty store no command departs twice, none is lost and none departs and stays queued |
| QueueProtocol.InOrder | service/nanomdm/service.go:230-262 | if devices answer what they were given and never defer, commands depart in enqueue order, the next delivery is the next one enqueued, and the run meets the preconditions of the code as written |
| QueueProtocol.DeferralsEnd | service/nanomdm/service.go:243-247 | a device answering NotNow to everything gets each not yet deferred command once, ends with an empty reply after at most as many reports as the queue is long, and its next Idle gets the head |
| SqlQueue.QueryAnswers | storage/mysql/queue.go:151-177 | on related tables the ORDER BY ... LIMIT 1 query has one possible answer, the machine's next command |
| SqlQueue.Step | storage/mysql/queue.go:13-206 | every call, in keep and in delete mode, keeps the simulation relation between tables and machine |
| SqlQueue.SqlAgrees | storage/mysql/queue.go:115-206 | over every comparable run the query after each session of a device has exactly one answer, the machine's reply |
| SqlQueue.DeleteModeUnobservable | storage/mysql/queue.go:50-99 | over every comparable run the query answers any enrollment, device or user channel, the same whether finished commands are deleted or kept |
| SqlQueue.DeleteModeCollects | storage/mysql/queue.go:50-99 | in delete mode, over every run, a command row exists exactly while some enrollment has a queue row for it |
| SqlQueue.ReportsKept | storage/mysql/queue.go:132-148 | over every comparable run in keep mode the results hold each last report with its status and bytes, of finished commands too |
| SqlQueue.EmptyTablesRelated | storage/mysql/queue.go:13-34 | empty tables are related to the empty machine |
| SqlQueue.MySQLStorage.EnqueueCommand | storage/mysql/queue.go:13-48 | when it is accepted; the command and one active row per id then, nothing else; and no change at all when it is refused |
| SqlQueue.MySQLStorage.DeleteCommand | storage/mysql/queue.go:50-99 | the queue row and its result go, the command exactly if no row of either table names it any more, and nothing else changes |
| SqlQueue.MySQLStorage.StoreCommandReport | storage/mysql/queue.go:115-149 | row by row: Idle changes nothing; a finishing report in delete mode removes its rows and, repeated, nothing else; otherwise the result has the reported status and bytes, or the report is refused and nothing changes |
| SqlQueue.MySQLStorage.ClearQueue | storage/mysql/queue.go:179-207 | refused for a user channel; otherwise the queries of the device and its user channels select nothing any more, those of all others what they did, and no row is lost |
| QueueBackends.ServeBoth | storage/kv/queue.go:22-138 | over a run, the replies the key-value backend computed are the only answers the MySQL query admits after each session of a device |
| QueueBackends.ServeBothFromEmpty | storage/mysql/queue.go:151-177 | the same from empty stores, with no relation assumed |
| PushWorkers.PushSerial | push/nanopush/provider.go:103-112 | the serial loop's map: for each token the answer to the last push with it |
| PushWorkers.StepKept | push/nanopush/provider.go:116-173 | every step of every schedule keeps the accounting: each push handed out is with one worker, or sent once and held, or collected |
| PushWorkers.NoSendOnClosed | push/nanopush/provider.go:135-165 | nothing is sent on a closed channel |
| PushWorkers.NoDeadlock | push/nanopush/provider.go:116-173 | until the collector returns some step is enabled |
| PushWorkers.MeasureDecreases | push/nanopush/provider.go:116-173 | every step decreases a measure, so every schedule ends |
| PushWorkers.ExactlyOnce | push/nanopush/provider.go:116-173 | when the collector returns every push was sent exactly once and collected exactly once |
| PushWorkers.AnyOrder | push/nanopush/provider.go:167-171 | collecting in any order gives the serial map if pushes that share a token are answered alike |
| PushWorkers.PushConcurrent | push/nanopush/provider.go:116-173 | under any scheduler the call ends, every push is sent once, and the map is the serial one under that condition |
| PushWorkers.PushAll | push/nanopush/provider.go:176-184 | no pushes is an error; otherwise the result is the serial one under the same condition |
| PushWorkers.LateResult | push/nanopush/provider.go:116-173 | with two workers any one push can be collected last |
| PushWorkers.RefinesSerialIff | push/nanopush/provider.go:103-173 | every schedule returns the serial map if and only if there is one worker or pushes that share a token are answered alike |
| PushByIds.GroupByTopic | push/service/service.go:111-118 | the groups partition the pushes by topic and keep their order |
| PushByIds.PushTo | push/service/service.go:130-137 | a provider's answers are those of a serial loop over its pushes in some order |
| PushByIds.PushSingle | push/service/service.go:98-107 | the answer of the topic's provider to the one push, or a failure |
| PushByIds.PushMulti | push/service/service.go:111-153 | exactly the tokens of pushes whose topic is served are answered, each as its topic's provider answers a push with that token; the call fails exactly when some topic has no provider or a failing one, and that costs no other topic its answers |
| PushByIds.PushIds | push/service/service.go:156-207 | single and multi path agree, the result is keyed by ids, and an id without push data is answered with an error and no push id |
| PushByIds.Reassociate | push/service/service.go:160-205 | not-found ids and token owners together |
| PushByIds.EachGetsItsOwn | push/service/service.go:156-207 | with distinct tokens the ids answered are exactly the requested ones whose topic is served or that were not found, each with the answer to its own push |
| PushByIds.NoIdLostExactly | push/service/service.go:160-205 | when every topic is served, every requested id has an answer if and only if tokens are distinct |
| PushByIds.LastOwns | push/service/service.go:166-176 | of the requested ids with one token the last in the request, and no other, is handed its answer |
| Strings.AtoiItoa | storage/kv/pushcert.go:60-68 | a printed number parses back to itself, so a stored token is always a number |
| ProviderCache.TokensCount | storage/kv/pushcert.go:50-76 | the next token of a topic is the number of certificates stored for it: tokens strictly increase and the reset branch is never taken |
| ProviderCache.CacheAgreesWithStore | push/service/service.go:48-85 | over every interleaving of calls, reads of single keys and certificate uploads: a cached provider was built from the certificate stored under exactly its token if and only if its parts are that certificate's, as when no upload of the topic fell between its reads; and a returned provider so read was current at some moment between its call's beginning and return |
| ProviderCache.ConsistentExactly | storage/kv/pushcert.go:27-48 | for a topic whose certificates all differ, a cached pair is consistent if and only if no upload fell between the three reads |
| ProviderCache.TornReadStays | storage/kv/pushcert.go:27-48 | a run: an upload between the reads leaves the old certificate cached under the new token, and a later undisturbed call returns it |
| ProviderCache.QuietCallReturnsLatest | push/service/service.go:48-85 | a call during which nothing is uploaded returns the provider of the latest certificate at the time, if that provider was read in one piece |
| ProviderCache.PushCertBucket.StorePushCert | storage/kv/pushcert.go:50-76 | the bucket afterwards, with certificate, key and token together |
| ProviderCache.StaleExactly | storage/kv/pushcert.go:21-25 | a token under which a certificate was stored is stale exactly when the topic has had another certificate since |
| ProviderCache.PushService.GetProvider | push/service/service.go:48-85 | from a cache that agrees with the store, the latest certificate's provider or an error, and the cache still agrees; a returned provider is cached under the current token, and no other entry changes |
| CertAuth.NewEnrollmentOwned | service/certauth/certauth.go:113-156 | binding at Authenticate keeps every certificate with one owner if and only if both options are off or the certificate is not another's |
| CertAuth.BindingsUnique | service/certauth/certauth.go:113-230 | over every run with the default options the owner of an enrollment's certificate is that enrollment, and no two enrollments share one |
| CertAuth.BindingsKept | storage/kv/certauth.go:18-55 | the certificate index only grows and is never re-pointed; without Authenticate messages no existing binding changes |
| CertAuth.AcceptedExactly | service/certauth/certauth.go:113-230 | which requests are accepted, by their fields and the bindings before; accepted exactly when the sender is bound to its certificate afterwards; refusals change nothing |
| CertAuth.HandledExactly | service/certauth/certauth.go:27-35 | the verdict on every request under every configuration, a missing certificate or identity included, and when it binds; user fields play no part |
| CertAuth.ChannelsAccepted | service/certauth/certauth.go:158-169 | once a device's Authenticate is accepted, every channel of the device showing the same certificate is accepted, over any run in which the device does not authenticate with another |
| CertAuth.OldCertificateRefused | service/certauth/certauth.go:120-140 | a certificate the enrollment had before and gave up is refused, because the index keeps it |
| CertAuth.AssociatedLookups | storage/kv/certauth.go:38-47 | after an association the enrollment looks up the hash and the hash the enrollment, and every other lookup in either direction is as before |
| CertAuth.Middleware.AssociateNewEnrollment | service/certauth/certauth.go:113-156 | verdict and bucket on every branch |
| CertAuth.Middleware.ValidateAssociateExistingEnrollment | service/certauth/certauth.go:158-230 | verdict and bucket on every branch |
| CertAuth.Middleware.Handle | service/certauth/certauth.go:232-248 | which of the two an incoming message goes through |
| EnrollKeys.SlicedPrefixKey | storage/kv/mdm.go:209-217 | the key the cascade writes is the association key of a pseudo id, never the key of an enrollment |
| Enrollment.NormalizeByFields | mdm/type.go:69-99 | kind, id and parent of every request field by field, for all five kinds and for none; a Shared iPad's users go by their short names |
| Enrollment.NormalizeDeviceByFields | service/certauth/certauth.go:27-35 | the id certificates are bound to: the UDID, else the enrollment id, whatever the user fields say |
| KvEnroll.NormalizeInjective | service/nanomdm/service.go:43-56 | two requests get the same enrollment id exactly when their fields name the same device and the same user, on a Shared iPad by short name |
| KvEnroll.ColonDeviceCollides | mdm/type.go:69-99 | not so for device ids that contain a colon |
| KvEnroll.RecordStep | storage/kv/mdm.go:40-252 | a message changes the record (all keys) of its sender as specified and of no other enrollment |
| KvEffects.AuthenticateLeaves | storage/kv/mdm.go:40-113 | key by key: message, certificate and serial number kept or cleared as they came, the last enrollment's one-time keys and bootstrap token gone, disabled, all else as before |
| KvEffects.TokenLeaves | storage/kv/mdm.go:129-201 | key by key: push details, the name of the kind, unlock token if one came, time, message and parent, enabled |
| KvEffects.DisabledLeaves | storage/kv/mdm.go:222-286 | CheckOut and UserAuthenticate key by key |
| KvEffects.BootstrapLeaves | storage/kv/bstoken.go:16-29 | SetBootstrapToken key by key, refused for user channels but for the time |
| KvEffects.RefusedChangesNothing | service/nanomdm/service.go:100-141 | requests without identity and Authenticate messages of user channels change nothing |
| KvEffects.PushKeysLatest | storage/kv/push.go:19-26 | after every run topic, magic and token are those of the enrollment's last TokenUpdate |
| KvLifecycle.Lifecycle | storage/kv/mdm.go:116-252 | on every run an enrollment's tally is its TokenUpdates since its last Authenticate, `enrolled_at` is there exactly when that is at least 1, and the disabled key exactly when the last message that sets or clears it was not a TokenUpdate |
| KvMigration.RunShaped | storage/kv/mdm.go:129-207 | in every reachable store a device's association keys name user channels with a stored TokenUpdate and, the cascade's pseudo id aside, only those; every such channel is associated; Authenticate messages are stored under device ids only |
| KvRoundTrip.ExportSummary | storage/kv/migrate.go:38-115 | for any enumeration order, the forwarded export says of each enrollment exactly what the store holds |
| KvRoundTrip.RoundTrip | cmd/nano2nano/main.go:69-98 | replaying the export of any reachable store into an empty one gives every exported enrollment its push info and bootstrap token back, enabled, and no other enrollment any |
| KvExportOrder.ExportOrdered | storage/migrate.go:9-11 | each device TokenUpdate follows its Authenticate, each user channel TokenUpdate its device's, and no disabled enrollment is exported |
| KvExport.ExportComplete | storage/kv/migrate.go:38-115 | a message of each type is in the stream if and only if it is stored under the matching key of an enabled device with an Authenticate, or of an enabled associated channel of one (both UserAuthenticate keys included); a device's come as Authenticate, TokenUpdate, bootstrap token and a channel's as user_auth, user_auth_digest, tok_upd |
| KvExport.ExportOnce | storage/kv/migrate.go:38-115 | if the enumerations name each key once, no message is sent twice |
| KvExport.ReachableExport | storage/kv/migrate.go:38-115 | both over every run |
| KvCascade.CascadeExact | storage/kv/mdm.go:219-252 | after disabling a device its user channels are all disabled if and only if they all were before |
| KvCascade.TallyCascadeExact | storage/kv/mdm.go:98-106 | after a device authenticates anew no user channel of it has a tally if and only if none had before |
| KvCascade.ChannelSurvives | storage/kv/mdm.go:209-217 | a run: device and user enroll, the device checks out or authenticates anew, and the channel is still enabled with its tally |
| KvCascade.RepairedCascade | storage/kv/mdm.go:209-217 | with the id sliced from behind the prefix, exactly the device's channels gain the disabled key |
| KvCascade.RepairedTallyCascade | storage/kv/mdm.go:98-106 | and exactly they lose their tallies |
| KvEnrollBackend.KV.StoreAuthenticate | storage/kv/mdm.go:40-113 | refused for a user channel; otherwise the three buckets afterwards |
| KvEnrollBackend.KV.StoreTokenUpdate | storage/kv/mdm.go:129-201 | message, association, push info, tally and enabled state afterwards |
| KvEnrollBackend.KV.UserChannelEnrollments | storage/kv/mdm.go:209-217 | as written every id it returns is the key prefix |
| KvEnrollBackend.KV.Disable | storage/kv/mdm.go:222-252 | the enrollment bucket afterwards |
| KvEnrollBackend.KV.StoreUserAuthenticate | storage/kv/mdm.go:267-286 | message stored under its digest-dependent key and the enrollment disabled until its next token |
| KvEnrollBackend.KV.StoreBootstrapToken | storage/kv/bstoken.go:16-29 | refused for a user channel; otherwise stored |
| KvEnrollBackend.KV.RetrieveBootstrapToken | storage/kv/bstoken.go:31-48 | refused for a user channel; otherwise the text under the device's bootstrap token key, if any, and only the last-seen key changes |
| KvEnrollBackend.KV.RetrieveTokenUpdateTally | storage/kv/mdm.go:255-290 | the tally the lemmas speak of, zero when absent |
| KvEnrollBackend.KV.RetrievePushInfo | storage/kv/push.go:28-49 | exactly the ids with complete push info, each with its own topic, magic and token |
| KvEnrollBackend.KV.ServeAll | service/nanomdm/service.go:116-185 | a run of messages through the service is the run the lemmas speak of |
| KvEnrollBackend.KV.Serve | service/nanomdm/service.go:100-185 | which messages are refused, by their fields, and the state afterwards |
| KvEnrollBackend.KV.RetrieveMigrationCheckins | storage/kv/migrate.go:38-115 | the loops produce the export the lemmas speak of; on a reachable store they never fail and the stream is complete and without repetition |
| SqlEnroll.Lifecycle | storage/mysql/mysql.go:204-248 | on every run a row is enabled exactly when its tally is at least 1, and the tally is the TokenUpdates since the last disable of its device |
| SqlEnroll.GuardLosesNothing | storage/mysql/mysql.go:295-305 | in every reachable state the `enabled = 1` guard loses nothing, and after a disable no channel of the device is enabled or has a tally |
| SqlEnroll.RowsExactly | storage/mysql/mysql.go:136-294 | over every run, which rows each table has: devices for each id that sent an Authenticate, enrollments for each accepted token, users for each user channel whose token or first message was accepted |
| SqlEnroll.MySQLStorage.Serve | service/nanomdm/service.go:100-185 | which messages are refused, by their fields and the devices known, and the state afterwards |
| SqlEnroll.MySQLStorage.StoreTokenUpdate | storage/mysql/mysql.go:204-248 | refused without a devices row, otherwise the upserts |
| SqlEnroll.MySQLStorage.Disable | storage/mysql/mysql.go:295-305 | refused for a user channel; otherwise no row of the device or its channels is enabled and every other row is as before |
| ApiOutcome.MergesKeepErrors | api/do.go:66-92 | after both merges a key is there exactly when an answer was for it, with its push id; it fails exactly when the store or the pusher failed it, and an enqueue error survives the push |
| ApiOutcome.AnswersUsed | api/api.go:74-96 | the push's answers count exactly if neither setting forbids it and the enqueue did not fail as a whole or lack a store; the two errors of the result are then those of the store and the pusher |
| ApiOutcome.UnknownIdReported | push/service/service.go:176-181 | an id without push data is a failed push in the API result, and the code is not 200 |
| ApiOutcome.OutcomeExact | api/api.go:64-128 | for errors keyed by the ids asked for, the code (500 for a failure of the whole call or of every id, 200 without failure, 207 for some but not all) is right if and only if the ids are distinct, the call failed as a whole, or some id did not fail |
| ApiOutcome.KvOutcomeExact | storage/kv/queue.go:128-133 | errors filed under the command UUID: the code as a function of the number of failed pushes plus one, and exactly when it is right |
| ApiOutcome.KvDistinctExact | storage/kv/queue.go:128-133 | with distinct ids and an enqueue error: 500 exactly when at most one id is without a failed push, which is right exactly if that coincides with none of those ids having been enqueued |
| ApiOutcome.RepeatedIdHidesFailure | api/api.go:98-128 | a repeated id that fails is reported as partial success |
| ApiOutcome.APIResult.DoEnqueue | api/do.go:131-166 | the result after merging the store's answer, in any map order |
| ApiOutcome.APIResult.DoPush | api/do.go:54-92 | the result after merging the pusher's answer, in any map order |
| ApiOutcome.APIResult.Code | api/api.go:98-128 | the counting loop counts the failing keys |
| ApiOutcome.EnqueueWithPush | api/api.go:74-96 | refused with an empty result exactly when there is no command and the call forbids the push; otherwise the result of the answers used, and its code |

## Left out

- Storage errors: transactions are atomic and every bucket or table access succeeds; an aborted transaction is a call that did not happen.
- `nanolib` buckets are maps. `kv.GetMap` of a certificate is three separate reads in any order, elsewhere one; nanolib is not part of this model.
- Bytes are strings, a raw message decodes to the message it came with, certificate hashes are given, timestamps are request fields. The UDID of a synthesized bootstrap message and its encoding follow that.
- APNs: the answer to a push is a function of the push. The HTTP calls, retries and contexts behind it are not modelled.
- Command UUIDs are non-empty and contain no ".", device ids are non-empty and contain no "." or ":", as the key layouts need; `DottedUuidCollides` and `ColonDeviceCollides` show what happens otherwise.
- MySQL: `created_at` is a strictly increasing call time (the resolution of TIMESTAMP is not modelled), `priority` keeps its default, CHECK constraints and column widths are not modelled, and the tables hold only the columns the theorems need.
- SqlQueue.SqlAgrees: compares the backends for a device channel, on fresh UUIDs, non-empty and distinct enrolled ids and reports that are Idle or name an outstanding command; in particular a KV clear of a device does not reach its user channels, where the MySQL one does.
- KvBackend.KV.Serve: needs each fetch of the run to return, since the program's loop does not otherwise; `EndsExactly` and `NamedOnceEnds` say when it does.
- PushByIds.PushMulti: the goroutines of different topics run one after another, in any order, each through its provider's worker pool; their interleaving, which shares only the channel, is not modelled.
- KvEnrollBackend.KV.Serve: the queue clear that comes with an Authenticate is the Clear call of `KvBackend`; it touches the queue bucket only, so the two are modelled apart.
- KvEnrollBackend.KV.StoreUserAuthenticate: the service option that answers an empty digest challenge without a stored message is not modelled.
- `int` overflow of tallies and stale tokens on 64 bits is not modelled.
- Serial numbers, logging and contexts.
- The `file` and `pgsql` backends, `allmulti`, `multi`, declarative management, webhook, dump, token and escrow services, HTTP handlers, CLI programs and their configuration.
- x509, PKCS#7, TLS, HMAC, plist and JSON encodings.
