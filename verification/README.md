# A verified model of the gateway's core

The gateway stands between API clients and model providers. Besides moving bytes it archives
conversations, orders upstream candidates, journals terminal records, caches HTTP clients,
sends each generation job at most once and keeps prepaid accounts. This project models those
algorithms in Dafny and proves what they promise, for all inputs and over all runs. Code that
only computes is modelled by functions; loops and updated fields are methods and classes held
to those functions; concurrent protocols are state machines over their atomic steps. Where the
code and a plausible promise disagree, the exact condition and a counterexample are proved.

| modules | what they model |
|---|---|
| `Text`, `Json`, `StableSort`, `Limits` | strings in `String::cmp` order, decimals, JSON values, the stable sort, shared bounds |
| `Canonical`, `Prefix`, `RequestAtoms` | canonical entries and their hashes, the Merkle prefix chain, the streaming atom visitor |
| `SessionBody`, `OwnedSessionBody`, `SessionTold`, `ConversationArchive`, `MediaReuse` | the borrowed and the consuming way to build a session body, what that body says of the two documents, and what the worker archives under which locators |
| `MediaLibrary`, `ArchiveReplay` | media rows and objects under passes, expiries and the reaper; what two archived conversations share |
| `ReturnStream`, `StreamAlike`, `StreamChunking`, `StreamPanics`, `StreamReply`, `StreamBlocks` | server-sent events folded into one document, its indifference to chunking, the streams on which it panics, and what the document holds, told from the events |
| `GroupRouting`, `GroupPreparation`, `GroupLayout`, `GroupOutcome`, `HealthScope` | reordering of upstream candidates bucket by bucket, and its outcome told from the answered plans; the identity of health evidence |
| `EarlyJournal` | the journal of early terminals: append, deferred queue, replay, drain |
| `CodexClients` | the cache of at most 64 HTTP clients |
| `GenerationDelivery`, `GenerationAck`, `GenerationStatus`, `GenerationBilling`, `GenerationEndings`, `GenerationSettlement`, `WorkflowTree` | one generation job under crashes and lease loss, its provider's id and its status told from what happened; the units each ending bills and what they cost; recursive walks over workflow JSON |
| `Staging` | staging prefixes, stored keys, manifests, cleanup delay |
| `LikePattern`, `FilterAst`, `FilterMeaning` | `LIKE` patterns; the typed request filter, its SQL adapter and the rows it selects |
| `Money`, `TokenPricing`, `PrepaidLedger`, `PrepaidDecisions`, `PrepaidBudgets`, `PrepaidPurge` | exact prices and decimal text; holds, settlements and budgets of prepaid accounts |

## How to read it

* A JSON object is the sequence of its fields in iteration order, with unique keys where that
  matters (`WellFormed`). Strings are sequences of code points; their order is that of their
  UTF-8 bytes.
* Hashes, base64 decoding, compact JSON printing, UUID parsing, lower-casing, clocks and what a
  plugin or provider answers are parameters. "No collision" is asked only of the texts actually
  hashed in the statement at hand, since no function into 64 hexadecimal digits is injective.
* Errors and refusals are values (`Option`, `Result`, `Outcome`); so is a panic where the code can
  reach one.
* Where a method or a transition is held to a function, the modules and lemmas named "told",
  "says" or "exactly" state its outcome a second time, from the inputs and without that function.
* `{:induction false}` on a lemma means that its body is the whole proof.

## Model

| member | source | states |
|---|---|---|
| Canonical.CanonicalIffSame | src/conversation.rs:250-277 | two values get one canonical form exactly when they differ only in field order at any depth (and, with removal, in volatile ids): sound and complete |
| Canonical.StripAfterCanonical | src/conversation.rs:162-208 | stripping volatile ids from the canonical form is canonicalizing with removal, for every JSON value |
| Canonical.StripVolatileIds | src/conversation.rs:188-208 | the in-place walk yields the value without volatile fields at any depth |
| Canonical.CanonicalIdempotent | src/conversation.rs:250-277 | canonicalizing twice is canonicalizing once |
| Canonical.CanonicalWellFormed | src/conversation.rs:250-277 | a canonical value has unique keys and is the same entry as its original |
| Canonical.AtomHashes | src/conversation.rs:162-186 | the content hash identifies an entry up to field order and volatile ids, the instance hash up to field order; converses under no collision of these two values |
| Canonical.AtomIsTold | src/conversation.rs:162-186 | an atom has its entry's own role and type when these are strings, else `user` and `message`; its content is the entry without the five volatile keys, and its hashes are those of its content and of the whole entry |
| Prefix.BuildPrefix | src/conversation.rs:210-227 | one node per content hash, each hashing its parent and naming it, with depth i + 1 |
| Prefix.FramedInjective | src/conversation.rs:1602-1608 | "parent NUL atom" splits in one way only, and the "root" marker is never a digest |
| Prefix.NodesAgree | src/conversation.rs:210-227 | node i of one history equals node j of another exactly when i = j and the first i + 1 content hashes agree |
| Prefix.SharedCountIsCommonDepth | src/conversation.rs:229-248 | the counted shared atoms are exactly the common nodes of the two chains |
| Prefix.RelationMeaning | src/conversation.rs:229-248 | each verdict with its confidence, exactly, by where the histories part: Retry for equal ones, Continues for a proper extension, Edit for a truncation or a difference in the last message of the shorter one, Branch for a later difference before that, Candidate for the rest |
| RequestAtoms.SelectMessageField | src/conversation.rs:388-451 | the last `messages` field, else the last `input` field |
| RequestAtoms.ForEachArray | src/conversation.rs:341-382 | the visitor is shown the parsed elements one by one, up to and including the first it refuses |
| RequestAtoms.ForEachRequestAtom | src/conversation.rs:311-339 | streaming shows exactly the atoms of the parsed request; a refusal at the k-th atom means exactly k were shown |
| RequestAtoms.ParsedFieldIsLast | src/conversation.rs:388-451 | in the parsed object the last duplicate of a field wins |
| RequestAtoms.ExtractFromSelected | src/conversation.rs:144-160 | atoms of the parsed request are the atoms of the selected raw field |
| RequestAtoms.AtomsAreTold | src/conversation.rs:144-160 | one atom for each message in order, or one user atom for a lone text, or one for a lone entry, each saying what its entry says |
| SessionBody.AppendEntryTurns | src/conversation.rs:908-928 | bare parts are gathered into one user turn that ends at the next entry |
| SessionBody.SessionBodyFromDocuments | src/conversation.rs:538-544 | the borrowed path appends the request's and then the reply's turns; what these are is told from the documents in `SessionTold.BodyIsTold` |
| SessionBody.BodyFresh | src/conversation.rs:1233-1331 | in every turn parts are numbered 0, 1, 2, … modulo 2^32, and media kind, length and hash tell the truth about the bytes |
| OwnedSessionBody.GetStripped | src/conversation.rs:1541-1561 | a public field of a value cleaned of private keys is the cleaned public field |
| OwnedSessionBody.ReadsStripped | src/conversation.rs:1051-1125 | text and media of an item are the same with and without cleaning it first |
| OwnedSessionBody.PushOwnedContentPart | src/conversation.rs:1051-1125 | the consuming push, which cleans tool parts only, pushes what the cloning push does |
| OwnedSessionBody.TurnFromOwnedContent | src/conversation.rs:1028-1049 | the consumed content becomes the borrowed path's turn, also for a lone string |
| OwnedSessionBody.TurnFromOwnedEntry | src/conversation.rs:979-1026 | taking fields out of an entry gives the turn that reading them gives |
| OwnedSessionBody.AppendOwnedEntryTurns | src/conversation.rs:954-977 | the consuming list walk equals the borrowed one |
| OwnedSessionBody.FromRequestDocument | src/conversation.rs:735-759 | the consumed request gives the borrowed path's request turns |
| OwnedSessionBody.AppendReturnDocument | src/conversation.rs:761-773 | the consumed reply appends the borrowed path's reply turns |
| OwnedSessionBody.ConsumeDocuments | src/conversation.rs:735-773 | for every two documents the consuming path builds exactly the body of the borrowed path |
| SessionTold.BodyIsTold | src/conversation.rs:880-906 | the body of every two documents, told from them alone: the turns of `messages` or else `input`, then those of `output`, else of the first choice's message, else of the document itself |
| SessionTold.EntryIsTold | src/conversation.rs:1127-1231 | an entry's turn has the entry's own string role, or the default of where it came from; a call becomes one tool call, a tool's answer one result with its ids, a message its content's parts and then one call for each of its tool calls, in order |
| SessionTold.OneTurnEach | src/conversation.rs:908-928 | where no item is a bare part there is exactly one turn for each entry, in order |
| SessionTold.ListIsTold | src/conversation.rs:908-952 | in any list each entry gets its own turn and each uncut run of bare parts one user turn, in order, and nothing is dropped |
| SessionTold.PartsTold | src/conversation.rs:1233-1331 | one part for each item that has a text, media or tool content, in order, and none for the others |
| SessionTold.PartTold | src/conversation.rs:1264-1331 | the part of an item: a tool call with name, arguments and id, a tool result, the media it holds, or its text; none exactly for a private or empty item |
| SessionTold.MediaFound | src/conversation.rs:1354-1388 | an item's media is that of the first of its nine places that decodes |
| SessionTold.StripCleans | src/conversation.rs:1541-1561 | cleaning takes away the four private fields at every depth and nothing else |
| ConversationArchive.TakePartBytes | src/conversation.rs:775-785 | the bytes of a turn's parts with their positions; nothing else changes |
| ConversationArchive.Body.TakeMediaBytes | src/conversation.rs:775-785 | all media bytes in order with turn and part position, and none left behind |
| ConversationArchive.Body.SetMediaLocator | src/conversation.rs:787-796 | the addressed part alone changes and only in its locator; an absent position changes nothing |
| ConversationArchive.Body.IntoPrefix | src/conversation.rs:798-803 | atoms, nodes and media rows of an unchanged body |
| ConversationArchive.Body.IntoArchiveParts | src/conversation.rs:805-826 | the consuming pass gives the same atoms, nodes and media rows while it moves every text out |
| ConversationArchive.PendingAre | src/conversation.rs:775-785 | what was taken is exactly what was there, with its position |
| ConversationArchive.StoreMedia | src/worker.rs:1243-1285 | each distinct hash is uploaded once, under the prefix of its own staging attempt and of no other key, so distinct hashes have distinct locators; every part with a hash gets that hash's locator |
| ConversationArchive.EnoughAttempts | src/proxy_lifecycle.rs:94-118 | for any number of uploads up to 2^128 there are attempt ids that are all different, which is what a pass is given |
| ConversationArchive.RowsMatchMedia | src/conversation.rs:828-852 | after storing, media rows and media parts correspond one to one in order, each row with its part's own turn, index, length, hash and locator, and no bytes remain |
| ConversationArchive.RowsIgnoreText | src/conversation.rs:828-852 | media rows do not depend on the texts that were moved out |
| MediaReuse.ReuseInTurns | src/db/archive_staging.rs:74-121 | the loops refuse at the first bad reference; else every part of a hash gets the tenant's existing locator, or that of the first part with it |
| MediaReuse.ReuseStored | src/db/archive_staging.rs:74-121 | on an uploaded body the substitution changes nothing but one locator per hash |
| MediaReuse.RefusedExactly | src/db/archive_staging.rs:80-101 | an uploaded body is refused exactly when some media has no usable type or is too long, never for its locator |
| MediaReuse.ArchiveConversation | src/worker.rs:1243-1295 | the whole pass: uploads under locators of its own, then rows, atoms and chain of the turns with the tenant's locator for each hash it already has; refused exactly for unusable media |
| MediaLibrary.ConversationIsPass | src/db/archive_staging.rs:123-134 | what the pass archives is what its transaction inserts in the library |
| MediaLibrary.RunKeeps | src/db/archive_staging.rs:28-150 | over every interleaving of uploads, passes of all tenants, expired writers, dropped rows, proofs and late deletions: one locator per tenant and hash, and every row's object safe from writers and reapers |
| MediaLibrary.NoDanglingRow | src/archive_reaper.rs:117-148 | so no row names an object that is gone |
| MediaLibrary.DuplicateCanGo | src/db/archive_staging.rs:466-480 | an upload of bytes the tenant already had can be reclaimed as soon as its pass has committed |
| MediaLibrary.KeptLocator | src/db/archive_staging.rs:107-121 | while the tenant keeps a row of a hash, later passes find the locator the earlier one stored |
| MediaLibrary.SameLocatorIff | src/db/archive_staging.rs:107-121 | a later pass, of any tenant, stores the same locator for a hash exactly when its tenant's rows still name it |
| MediaLibrary.CommitExactly | src/db/archive_staging.rs:123-150 | a commit adds only rows of its own, every one the table takes whose place is free, changes none, and hands its own attempts, and no other's, to the reaper |
| ConversationArchive.PartValueInjective | src/conversation.rs:1513-1539 | the JSON of a part determines everything of it but its raw bytes |
| ConversationArchive.TurnIdentity | src/conversation.rs:1469-1503 | two turns share a content hash exactly when role and parts agree; origin and raw bytes play no part |
| ConversationArchive.IdentityFields | src/conversation.rs:1478-1503 | the origin is left out of the hashed value and kept in the stored one |
| ConversationArchive.TurnIsTold | src/conversation.rs:1469-1539 | a turn's stored content names its role, its origin and, in order, all its parts with every field of each but the bytes; both hashes are those of the same value without the origin |
| ArchiveReplay.ReplayShares | src/conversation.rs:1505-1539 | two archived conversations share a prefix node exactly when it stands at one depth, the turns up to it agree in role, media hashes and all other fields, and for each media in them the second tenant's rows still name the first one's locator |
| ArchiveReplay.KeptRowsShare | src/db/archive_staging.rs:107-121 | in a tenant that keeps its rows media makes no difference: a node is shared exactly when the turns up to it agree, media included |
| ArchiveReplay.NoRowsShareText | src/db/archive_staging.rs:107-121 | where no row of the media is left, as in another tenant, chains part exactly at the first media |
| ArchiveReplay.ReplayOfOneBody | src/worker.rs:1243-1295 | a body archived again while its rows are kept gets the same content hashes under whatever attempts |
| ArchiveReplay.ReplayedImageShares | src/worker.rs:1243-1295 | a run in which one tenant archives a conversation with an image twice, under two attempts, with equal hashes |
| ReturnStream.RawReturnDocument | src/conversation.rs:546-731 | the event loop computes the fold of one step per event and makes the document of what it leaves; what that holds on each exit is told from the events in `StreamReply` and `StreamBlocks` |
| StreamChunking.SplitInvariant | src/conversation.rs:557-731 | cutting a text, a tool fragment or a `partial_json` fragment in two, anywhere in any stream, with id, name, type, role and arguments in either half, leaves the document unchanged, objects being sorted maps |
| StreamAlike.RunAlike | src/conversation.rs:557-731 | accumulators that differ only in the order of fields stay so over every stream |
| StreamAlike.FinishAlike | src/conversation.rs:680-720 | and give one document, or panic, alike |
| StreamChunking.SwapInvariant | src/conversation.rs:557-731 | neighbouring fragments of different tool or block indexes commute in any stream |
| StreamPanics.PanicsExactly | src/conversation.rs:546-731 | for every stream, told from its events alone: reassembly panics exactly when a fragment reaches a tool whose latest whole message gave a `function` that is no object, or, with neither a completed response nor chat content, when a block that is neither object nor null replaced one that had collected a parseable input, or when a started message that is neither object nor null has blocks to take |
| StreamPanics.CompletedWins | src/conversation.rs:557-731 | when a completed response occurred, the last one is returned whatever the deltas were, and there is no answer exactly when a fragment reached such a tool |
| StreamReply.WholeReply | src/conversation.rs:576-588 | if any event is or carries a whole response, the last one is the document |
| StreamReply.TextReply | src/conversation.rs:660-716 | else, with neither chat message nor blocks, the document is one assistant message whose text is all text fragments in order; there is none exactly when that is empty |
| StreamReply.ChatReply | src/conversation.rs:590-690 | with chat content it is one message with the last role, the joined content and one call per tool index in ascending order, each with its joined id, name and arguments, on top of the latest whole message |
| StreamBlocks.BlockReply | src/conversation.rs:633-704 | with a started message or blocks it is the last started message with the blocks in index order, each with its joined text and its parsed input |
| StreamPanics.FunctionIsText | src/conversation.rs:598-631 | three events with a completed response that panic, because a tool's `function` is a text |
| StreamPanics.InputHasNoBlock | src/conversation.rs:676-690 | a tool block with its input, replaced by a text at the same index, panics |
| StreamPanics.MessageIsText | src/conversation.rs:691-702 | a started message that is a text, with one block, panics |
| GroupRouting.PlanStaysValid | src/plugin/routing.rs:451-479 | sorting an accepted plan for execution keeps it an exact permutation of its bucket |
| GroupRouting.BucketsPartition | src/group_routing.rs:459-475 | every candidate is in exactly one bucket or unbound |
| GroupRouting.BoundLayoutPermutes | src/group_routing.rs:734-799 | whatever each strategy answered, the bound part is a permutation of the buckets' candidates |
| GroupRouting.LayoutPermutes | src/group_routing.rs:728-807 | the final order is a permutation of the candidates |
| GroupLayout.BucketsInOrder | src/group_routing.rs:459-475 | buckets come by descending priority, then ascending group id, and hold exactly their candidates in native order |
| GroupLayout.SlotsOfBucket | src/group_routing.rs:140-158 | each bucket fills a fixed run of slots in its own order; no other bucket's outcome moves it |
| GroupLayout.PolicyKeys | src/group_routing.rs:528-548 | for the buckets of any candidates: a candidate has a policy exactly when its bucket's plan succeeded and the plugin does not use native health |
| GroupLayout.StickyFirst | src/group_routing.rs:161-187 | execution order permutes the plan; the account a session prefers comes first (src/group_routing.rs:691-695), and in either half sticky directives come first by rising rank, with the plugin's order kept within each rank and among the others |
| GroupOutcome.LayoutIsOrdered | src/group_routing.rs:690-807 | the final order, told from bindings and answers: groups by descending priority and ascending id fill consecutive runs of slots, unbound candidates follow in native order, and inside a run each candidate's place is that of the executed plan or native |
| GroupOutcome.OrderIsExecuted | src/group_routing.rs:161-191 | what is executed of a plan is a permutation of it, ordered by preferred account, then stickiness by rank, then the plugin's own order |
| GroupOutcome.PoliciesHold | src/group_routing.rs:528-548 | a candidate has a policy exactly when its group's plan is used without native health, and it names the group, its version and the directive the plugin gave this candidate |
| GroupPreparation.ReserveNativeBucketRanks | src/group_routing.rs:140-158 | the members of a bucket get the next consecutive ranks in native order |
| GroupPreparation.OverwrittenRanked | src/group_routing.rs:734-799 | an accepted plan permutes the ranks of its own bucket and touches no other |
| GroupPreparation.SortByRank | src/group_routing.rs:790-807 | the stable sort by rank gives the bound layout followed by the unbound candidates in native order |
| GroupPreparation.CollectBuckets | src/group_routing.rs:459-475 | the map of buckets the loop builds |
| GroupPreparation.RankBuckets | src/group_routing.rs:476-799 | ranks and policies of all buckets, or nothing when an await was cut off |
| GroupPreparation.Request.Prepare | src/group_routing.rs:327-362 | all or nothing: exactly when every await came back, the order and the policies that the answered plans ask for, told without the functions that compute them: by bucket, in a bucket with one version and a valid plan the preferred account first and in either half the sticky ones by rising rank, else native order; each policy is its plan's directive. Otherwise the untouched slice and no snapshot |
| GroupPreparation.Request.PrepareInner | src/group_routing.rs:364-807 | the same for the preparation inside the deadline |
| HealthScope.FramingInjective | src/group_routing.rs:84-87 | length-prefixed fields: no two lists of fields feed the hasher the same bytes |
| HealthScope.ScopeIdentity | src/group_routing.rs:89-114 | two strategies share a health scope exactly when tenant, route, group, plugin, fingerprint, version and configuration agree |
| EarlyJournal.RunKeeps | src/early_request.rs:67-168 | every interleaving of appends with the replay task keeps the order, result and limit invariants |
| EarlyJournal.NothingLostOrReordered | src/early_request.rs:125-168 | deferred records in arrival order are the committed ones, then the uncommitted batch, then the queue; none twice |
| EarlyJournal.DrainedMeansCommitted | src/early_request.rs:103-107 | when `drain` may return, every append that answered true is in the database |
| EarlyJournal.DrainWaitsOnlyForGuards | src/early_request.rs:103-107 | the guards are gone exactly when queue and replay hold no record |
| EarlyJournal.DrainCanFinish | src/early_request.rs:103-168 | from every reachable state replay steps alone, with a database that answers, free every guard and commit every deferred record |
| EarlyJournal.RefusedIsNowhere | src/early_request.rs:67-101 | an append that answered false neither queued nor wrote its record |
| EarlyJournal.InflightIsNotEnough | src/early_request.rs:156-163 | a reachable state with an empty queue and no `inflight` record but a record still to commit: the drain has to count guards |
| EarlyJournal.Journal.Append | src/early_request.rs:67-101 | one append seen from its two ends: true exactly when the record was written or is last in the queue, false only when it is in neither |
| EarlyJournal.Journal.TakeReplayBatch | src/early_request.rs:125-143 | moves the oldest records out of the queue, at most a batch |
| EarlyJournal.Journal.Replay | src/early_request.rs:125-168 | a replay round commits the oldest records up to the first failure of the database, at most a batch, leaves the others queued in their order, and frees exactly the committed records' guards |
| EarlyJournal.Journal.ReturnRetained | src/early_request.rs:160-168 | puts the uncommitted rest back in front, in its old order |
| EarlyJournal.Journal.Drain | src/early_request.rs:103-107 | idle exactly when no guard is left, and then nothing is queued and every append that answered true has its record in the database |
| CodexClients.Clients.ClientSnapshot | src/codex_clients.rs:199-257 | the method's queue and answer are those of the specified access |
| CodexClients.CacheInvariant | src/codex_clients.rs:199-257 | after any calls: at most 64 entries, distinct keys, one transport per account and kind, queue in order of last use |
| CodexClients.AccessKeepsRecency | src/codex_clients.rs:199-257 | one call keeps the queue in order of last use |
| CodexClients.StaysGuarded | src/codex_clients.rs:199-257 | an entry survives any calls that do not invalidate it while fewer than 64 other keys were used since |
| CodexClients.KeepsHitting | src/codex_clients.rs:199-257 | such a key hits again with the same instance id |
| CodexClients.HitsExactly | src/codex_clients.rs:199-257 | after any calls, failed builds and invalidations among them, a key gets its old client exactly when, by the calls' answers, no client was built that invalidates it and never 64 other keys used since were cached |
| CodexClients.HitsByCount | src/codex_clients.rs:199-257 | where no call invalidates another's client, that is exactly when fewer than 64 distinct others were used since |
| GenerationDelivery.StepKeeps | src/generation.rs:209-285 | every step of worker, database, operator or clock keeps the invariant, also a statement that is executed at any time after its worker stopped waiting for it |
| GenerationDelivery.AtMostOnePost | src/generation.rs:564-760 | with any workers, crashes, lease losses, late statements and retries at most one POST is sent per job, with the nonce granted for it; until it is resolved the row is armed and unclaimable |
| GenerationDelivery.OnePostHappens | src/generation.rs:564-760 | the bound is met, and no worker can claim the job after its sender is gone |
| GenerationDelivery.ArmedNeedsEvidence | src/db/generation/jobs.rs:1259-1311 | an armed row keeps everything but its lease until the provider or an operator gives evidence, unless no POST has left and nobody is about to send |
| GenerationDelivery.GenericSparesArmed | src/db/generation/jobs.rs:1410-1430 | when generic retry or exhaustion changes an armed row, no POST is ever sent for the job |
| GenerationDelivery.GenericChangesArmed | src/generation.rs:235-262 | the generic branch changes an armed row exactly when it gives up on a job whose lease it still owns |
| GenerationDelivery.LateGuard | src/generation.rs:215-265 | it can: a run in which the guard is set after the quarantine looked for it, and exhaustion settles the armed row |
| GenerationDelivery.ClosedWithoutPost | src/generation.rs:564-760 | once the submission is over without a POST none is sent over any further run |
| GenerationDelivery.NotResubmitted | src/generation.rs:382-433 | over every run: without idempotent submission an attempt that claimed a submitting job never arms and never sends, at any later point; with it, it only ever sends the nonce it found |
| GenerationDelivery.AfterError | src/generation.rs:225-265 | after an error an armed row loses at most its lease and another worker's row nothing; the worker lets go of an active row; an unarmed row keeps its submission unless the failures are used up |
| GenerationAck.RowHoldsProvidersId | src/generation.rs:751-760 | over every run: the row has an upstream id exactly when an acknowledgement of the one POST or an operator's proof was recorded, and it is that id |
| GenerationAck.PolledIdIsTheRows | src/generation.rs:827-856 | that id never changes, and whoever polls asks for it |
| GenerationAck.AckIsStored | src/db/generation/jobs.rs:1270-1296 | an acknowledgement that still finds its row makes it running under the acknowledged id, free and due in two seconds |
| GenerationAck.ProofIsStored | src/db/generation/reconcile.rs:205-213 | an operator's id is taken exactly by an armed row without a live lease, and is then what the row runs under |
| GenerationStatus.StatusIsTold | src/generation.rs:209-285 | over every run: a job is ended by one settlement, exhaustion or early cancellation alone and keeps that outcome; before, its status is told by a stop request, the recorded id and the granted nonce |
| GenerationStatus.ClaimExactly | src/db/generation/jobs.rs:1005-1035 | a worker gets a job exactly when it is not over, not armed, due and nobody's, and holds it for a minute |
| GenerationStatus.RetryExactly | src/generation.rs:231-262 | after an error the owner puts an unarmed job back for 1, 2, 4 … 32 and then 60 seconds; the twentieth failure ends it, but never a cancellation |
| GenerationBilling.ContractBounds | src/generation.rs:296-347 | the pixel contract never overflows and reserves at most 16 outputs of at most 2^30 pixels |
| GenerationBilling.MegapixelWithinReservation | src/generation.rs:349-380 | any count up to the reserved one bills exactly its pixels within the reservation, any larger one is refused |
| GenerationBilling.BilledWithinReservation | src/generation.rs:857-1172 | no ending of a job (poller, staged manifest, cancellation, exhaustion) settles below 0 or above the estimate, and a success bills at least 1; the exact bill is `GenerationEndings.ExactBill` |
| GenerationBilling.ComfyMegapixelDecision | src/generation.rs:1136-1172 | a megapixel job fails for the whole reservation exactly when it has too many outputs, and else is delivered for its exact pixels, whatever the delivery |
| GenerationEndings.ExactBill | src/generation.rs:857-1173 | every ending's bill: a failure is free except, for the whole estimate, a succeeded Seedance job with a duration outside 1 to the estimate and a ComfyUI job whose pixels are refused; a success bills exactly the stated units |
| GenerationEndings.SeedanceExactly | src/generation.rs:967-1072 | which Seedance status is retried, fails, succeeds or is an error, and for how much |
| GenerationEndings.SiliconFlowExactly | src/generation.rs:857-959 | the same for SiliconFlow, whose success bills one unit |
| GenerationEndings.ComfyExactly | src/generation.rs:1074-1173 | the same for ComfyUI: retried until its entry is there, failed on its own error, and else billed by manifest units or exact pixels |
| GenerationEndings.ContractExactly | src/generation.rs:296-347 | when a megapixel job has a pixel contract, and which pixels it then bills |
| GenerationEndings.StagedExactly | src/generation.rs:1620-1653 | a staged manifest succeeds for its own units exactly when these are within the estimate, its assets are as many as the driver delivers, each sized and named in order below the prefix of this job and attempt, half a GiB at most together, and the stored sizes agree; else it fails for nothing |
| GenerationSettlement.UnitsWithinHold | src/db/generation/jobs.rs:235-244 | units within the estimate cost no more than the money held for the estimate; at a per-unit price exactly units times price, saturated |
| GenerationSettlement.EndingIsCharged | src/db/generation/jobs/finish.rs:241-306 | after any run on a forward clock, whatever way a job ends, its units' cost is charged in full and the rest of the hold goes back |
| WorkflowTree.FindComfyAssets | src/generation.rs:1763-1798 | the early-cutoff walk yields exactly the first 17 assets of the preorder list |
| WorkflowTree.CollectAssets | src/generation.rs:1136-1143 | so the "more than 16" test agrees with counting every asset |
| WorkflowTree.FilledIffNamed | src/generation.rs:797-825 | filling fails exactly when a placeholder names no parameter |
| WorkflowTree.PlaceholderLeft | src/generation.rs:797-825 | a placeholder is left exactly when the template nests one as the name of another that is filled with text |
| WorkflowTree.NestedTemplate | src/generation.rs:797-825 | such a template exists |
| WorkflowTree.FilledAt | src/generation.rs:797-825 | path by path: where the template asks for a parameter the filled document has the one of that name; elsewhere scalars, keys, lengths and order are unchanged |
| WorkflowTree.MissingExactly | src/generation.rs:809-815 | filling fails exactly when some reachable place asks for a name that is not given |
| Staging.FormatInjective | src/archive_staging.rs:125-133 | UUID texts identify their UUIDs |
| Staging.OneOwner | src/archive_staging.rs:317-322 | no locator matches the canonical prefixes of two different keys |
| Staging.DatabaseRoundTrip | src/archive_staging.rs:135-147 | four columns load as a key exactly when they are that key's own text and its owner may have that purpose |
| Staging.BelowPrefixIsValid | src/archive_staging.rs:340-352 | one safe name below a prefix is a valid locator of that key and of no other |
| Staging.MediaLocatorNeverRefused | src/archive_staging.rs:354-366 | the final check of a media locator never fails |
| Staging.ManifestObjects | src/generation.rs:1620-1653 | a well-formed manifest's objects are pairwise distinct, valid, and under that job's and attempt's prefix alone |
| Staging.BackoffDoubles | src/archive_staging.rs:324-338 | the delay doubles from five seconds to a six-hour cap; jitter adds less than a minute and keeps the cap |
| LikePattern.LiteralPrefix | src/filter_ast.rs:292-303 | an escaped text in front of a pattern demands exactly that text |
| LikePattern.PatternContains | src/filter_ast.rs:292-303 | the pattern raises no escape error and matches exactly the texts that contain the needle, also one made of `%`, `_` and `\` |
| LikePattern.SearchContains | src/filter_ast.rs:292-303 | for every input the built pattern means "contains its trimmed lower-case form" |
| LikePattern.TrimIs | src/filter_ast.rs:292-303 | trimming removes the white space at both ends and nothing else |
| FilterAst.ValidationReturns | src/filter_ast.rs:114-215 | validation never panics, because the operator matrix precedes the range conversion |
| FilterAst.Validate | src/filter_ast.rs:94-105 | accepts exactly up to twelve accepted conditions, and else reports the first failing one |
| FilterAst.AdaptationIsTotal | src/db/requests/queries.rs:1153-1396 | every accepted condition is adapted for every source without reaching an unreachable arm, to a bind of the column's type; ranges are never empty |
| FilterAst.SearchMeaning | src/db/requests/queries.rs:1343-1349 | an accepted search selects exactly the texts that contain its input |
| FilterAst.StatusFiltersPartition | src/db/requests/queries.rs:1299-1319 | under three-valued logic "is not" selects exactly what "is" leaves out, null included, and no row has two statuses |
| FilterMeaning.SelectsExactly | src/db/requests/queries.rs:1250-1396 | for every accepted condition, source and row value: the pushed predicate selects the row exactly when its value compares with the asked one as the operator says, contains it, lies in the range, or has (or has not) the named status; a missing value only ever matches by status |
| FilterMeaning.AcceptedExactly | src/filter_ast.rs:114-215 | a condition is accepted exactly when its value suits the column, the column may be asked so, and it has a second, not smaller value exactly for a range |
| Money.PriceIsCeiling | src/model.rs:1900-1906 | the price is the least whole number of micros covering the exact cost, saturated |
| Money.PriceMonotone | src/model.rs:1900-1906 | more tokens or a higher price never cost less |
| Money.SplittingCosts | src/model.rs:1900-1906 | billing in two parts never costs less and, unsaturated, at most one micro more |
| Money.UnitPriceExact | src/model.rs:1712-1728 | per-unit prices charge exactly units times price, saturated; whole millions exactly their price; nothing exactly on overflow |
| Money.DecimalStringReadsBack | src/model.rs:1886-1898 | the text of every 64-bit amount, the minimum included, reads back as that amount, and ends in no zero after a point |
| TokenPricing.TierWithinMaximum | src/db/requests/settlement.rs:1624-1676 | whichever tier is charged, known or not, is no dearer than what was reserved for |
| TokenPricing.CoveredExactly | src/db/requests/settlement.rs:438-481 | a usage is covered by its hold at every price and under all ceilings that cover it exactly when at most one of its three input counts is not a whole number of millions |
| TokenPricing.UsageWithinHold | src/db/requests/settlement.rs:438-481 | in every other case the charge exceeds the hold by at most one micro per further uneven input class, never by more than two |
| TokenPricing.ExcessIsReached | src/db/requests/settlement.rs:1677-1691 | that excess is reached: three micros charged where one was held |
| TokenPricing.ChargeIsTold | src/db/requests/settlement.rs:1624-1691 | the charge is the sum of four costs, each the least whole micros at the price of the named tier, of the base, or of the dearest tier for an unknown name; none exactly when that overflows |
| TokenPricing.HoldIsTold | src/db/requests/settlement.rs:438-481 | the hold is the cost of both ceilings at the dearest input and output price of base and tiers; none exactly for a negative ceiling or an overflow |
| PrepaidLedger.StepKeepsBooks | src/db/requests/settlement.rs:653-1586 | every transaction keeps available plus held equal to the ledger, holds equal to active reservations, and neither overdrawn |
| PrepaidLedger.ReserveKeeps | src/db/requests/settlement.rs:653-898 | a hold moves money from available to held, for account, key and row alike |
| PrepaidLedger.ResizeKeeps | src/db/requests/settlement.rs:900-1126 | a resize moves exactly the difference |
| PrepaidLedger.RecordKeeps | src/db/requests/settlement.rs:1437-1542 | a charge releases the rest of its hold or draws the overage, and books itself everywhere once |
| PrepaidLedger.MaximumChargeBounds | src/db/requests/settlement.rs:1390-1425 | a charge is covered by the account and leaves room for the key's other holds in every budget |
| PrepaidLedger.WeeklyIsRolling | src/db/requests/settlement.rs:1603-1622 | the query over daily rows and one partial day is the plain sum of the last seven days |
| PrepaidLedger.RecordRollups | src/db/requests/settlement.rs:1476-1483 | the upserted daily rows keep adding up to the single charges |
| PrepaidDecisions.ReserveExactly | src/db/requests/settlement.rs:653-898 | a hold is taken exactly when the key is there and has a free place, the limits admit it, the balance covers it, and today's, this week's and all charges of the key plus its holds and this one keep the three budgets; what changes is that one hold |
| PrepaidDecisions.ResizeExactly | src/db/requests/settlement.rs:900-1126 | the same for a resize, with when it is a conflict, a no-op or a fault |
| PrepaidDecisions.SettleExactly | src/db/requests/settlement.rs:1283-1586 | a settlement charges exactly the usage's price, or else the most of it that funds and budgets bear beside the other holds, once |
| PrepaidDecisions.QueriesAre | src/db/requests/settlement.rs:1588-1623 | the daily, weekly and lifetime queries, the held total and the active count are plain sums over charges and holds |
| PrepaidDecisions.GrantsExactly | src/db/billing/ledger.rs:138-334 | a reversal goes through exactly while the amount is available; a grant and its reversal, in either order, leave nothing but their two entries |
| PrepaidBudgets.RunKeeps | src/db/requests/settlement.rs:721-801 | over every run, clocks in any order: lifetime charges and holds, the charges of every day and of every seven days, and the active requests stay within their limits |
| PrepaidBudgets.ChargeKeepsWeek | src/db/requests/settlement.rs:1401-1424 | one charge keeps every seven-day window, wherever it begins, within the weekly budget |
| PrepaidBudgets.StepKeepsSteady | src/db/requests/settlement.rs:721-786 | with a clock that does not run backwards, what is charged and held always fits the budgets as they stand |
| PrepaidBudgets.HeldUsageIsCharged | src/db/requests/settlement.rs:1390-1442 | then a usage that costs no more than its hold is charged in full, whatever ran before |
| PrepaidBudgets.SettledOnce | src/db/requests/settlement.rs:1444-1462 | a settled reservation keeps its charge for ever, and settling it again charges nothing |
| PrepaidPurge.PurgeIsInvisible | src/db/requests/settlement.rs:23-45 | a purge at one time, of any old rows, changes no daily or weekly query at that time or later |
| PrepaidPurge.PurgesAreInvisible | src/db/requests/settlement.rs:23-45 | over every run with a forward clock, purges at any points leave all answers as they are without purging |
| PrepaidPurge.HeldUsageIsChargedAfterPurges | src/db/requests/settlement.rs:1390-1442 | so a usage within its hold is charged in full after any purges too |
| PrepaidPurge.EarlierClockSees | src/db/requests/settlement.rs:23-45 | a clock behind the purge does see it |
| Text.DecimalReads | src/generation.rs:1620-1653 | the decimal digits of a number read back as the number, so numbered object names are distinct |
| StableSort.SortIs | src/group_routing.rs:790-807 | a sorted arrangement that keeps the order within each key is what the stable sort returns |

## Where the code and a promise differ

* `apply_workflow_parameters` can leave a placeholder: `WorkflowTree.PlaceholderLeft` gives the exact
  condition and `WorkflowTree.NestedTemplate` an instance.
* A token charge can exceed its reservation although the usage kept within the reserved ceilings,
  because each input class is rounded up by itself. `TokenPricing.CoveredExactly`: this can happen
  exactly for usages with two or three input counts that are not whole millions.
  `TokenPricing.UsageWithinHold` bounds the excess and `TokenPricing.ExcessIsReached` reaches it. The
  settlement takes such an excess from the available balance, as far as balance and budgets allow.
* Reassembling a streamed reply can panic, also when a completed response has arrived:
  `StreamPanics.PanicsExactly` gives the exact condition on the events, and
  `StreamPanics.FunctionIsText`, `StreamPanics.InputHasNoBlock` and `StreamPanics.MessageIsText` one
  stream for each of its three parts.
* An armed job is not quite out of reach of the generic branch: exhaustion settles without looking for
  the guard, so a guard statement that is executed late, after the quarantine found none, is overrun
  (`GenerationDelivery.LateGuard`). `GenerationDelivery.GenericSparesArmed` shows that this happens only
  to jobs for which no POST has left or ever will.
* "Clocks in any order" and purging do not go together: a clock behind a purge finds a day's charges
  gone (`PrepaidPurge.EarlierClockSees`); with a forward clock no purge is seen
  (`PrepaidPurge.PurgesAreInvisible`).
* The `inflight` counter of the journal is not a sound drain condition; the code waits for the guards
  instead (`EarlyJournal.InflightIsNotEnough`).

## Left out

- Canonical.StripVolatileIds: works on values; aliasing and storage reuse of the tree edited in place are not modelled, and neither are those of the consumed documents in `OwnedSessionBody`.
- ReturnStream.RawReturnDocument: takes the parsed events; splitting the byte stream into `data:` lines and parsing them is left out.
- RequestAtoms.ForEachRequestAtom: well-formed JSON text only, given as raw values in source order; byte-level parsing and its errors are left out.
- SessionBody.SessionBodyFromDocuments: the media decoder, the media hash and the JSON printer are parameters.
- GroupPreparation.Request.Prepare: candidate keys are taken to be distinct; the database's bindings, quota signals and each strategy's answer are parameters, and an await that never returns is one that is dropped. Tracing and time limits are not modelled.
- EarlyJournal.RunKeeps: the directory of journal files, tracing and metrics are left out; a write that timed out counts as deferred even if the database committed it, so a record may be written twice, never lost. `EarlyJournal.Journal.Append` and `EarlyJournal.Journal.Replay` are passages no other task interrupts; their interleavings are runs of the steps.
- GenerationDelivery.AtMostOnePost: worker ids are unique and each worker makes one attempt at a time; claim and settlement are transactions that hold the row until their commit, so only the single statements are executed late. Synchronous requests, cancellation calls to the provider and asset staging are left out. The time between arming and sending is not bounded.
- GenerationBilling.BilledWithinReservation: the ComfyUI, Seedance and SiliconFlow pollers, staged manifests and abandoned jobs, given the parsed replies; other drivers, HTTP failures and asset transfer are left out.
- WorkflowTree.PlaceholderLeft: parameters are strings, numbers, booleans or null.
- Staging.DatabaseRoundTrip: the UUID parser is a parameter that reads canonical texts as their UUIDs and nothing else.
- LikePattern.SearchContains: lower-casing is a parameter; column text is compared after SQL `LOWER`, whose agreement with Rust's outside ASCII is not claimed.
- FilterAst.AdaptationIsTotal: column expressions and the joining of conditions into one query text are left out.
- FilterMeaning.SelectsExactly: one condition on one row's value; which expression yields that value is the query's, and a job's status is never null.
- TokenPricing.CoveredExactly: usage within the reserved input ceiling; a provider may report more input than was estimated, and then the charge is only capped by balance and budgets.
- PrepaidLedger.StepKeepsBooks: one prepaid account under unchanged policies; the settlement is given the reservation as it was last resized. Unlimited credentials, entitlement cycles, per-minute windows (their verdict is a parameter), idempotency keys of grants and 64-bit overflow of stored sums are left out.
- PrepaidBudgets.RunKeeps: no purges, since its clocks may run backwards; `PrepaidPurge` adds them for forward clocks.
- PrepaidBudgets.HeldUsageIsCharged: budgets below the 64-bit maximum, where the code's sums saturate.
- MediaLibrary.RunKeeps: a pass whose leases were lost commits nothing and is no step; each transaction is one step, under the tenant's lock. The reaper's own leases and its other reference checks, which only protect more, are left out, and so is the collation of `ORDER BY`.
- HTTP, TLS, proxies, DNS, OAuth, configuration, metrics, the archive reaper, memory admission and the web and operations tooling: plumbing, or per-branch checks.
