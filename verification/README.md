# Evidence authorities, journals and their verifiers

This project models the part of the repository that produces evidence and the
part that later checks it: stateful authorities that write hash-chained
journals, the independent readers and verifiers that replay those journals, the
all-or-nothing publication of formal records and registrations, the resumable
campaign driver, and the counting and arithmetic of the reports.

How it is organised:

- `journal_bytes`, `hash_chain` - newline-framed files, short writes, the chain,
  and a journal object (`ChainedJournal`) whose methods do what a pure `Append`
  says. The hash and the canonical encoder are parameters, so tamper evidence
  reads "equal, or here are two colliding inputs".
- `collector_*` - the native semantic collector: the stateful predicate, the
  locked intake, durability of acknowledgements, bounds over whole histories,
  the replaying verifier, and the agreement of the two. `collector_welcome` and
  `collector_acks` say which facts get in, by the history alone;
  `collector_report` says what is accepted and what is reported, by the records
  alone.
- `dynamic_*` - the dynamic authority as a state machine whose actions are the
  separately locked stretches of control operations and request handlers;
  `dynamic_evidence` ties each record to the evidence its action brought.
- `loopback_*` - the loopback authority. A locked stretch is a script of small
  steps, because completions are journalled without the lock
  (experiments/exposure_gate/loopback_traffic.py:1024) and a failed append shuts
  the route without it (758-765); any unlocked step may fall between any two
  steps of a stretch. `loopback_licence` and `loopback_upstream` trace records
  back to what was asked and who answered, `loopback_facts` says what is derived
  from them.
- `readers` - what the three journal readers accept, on bytes and records.
- `recovery_chain`, `recovery_exact`, `client_trace`, `client_window`,
  `client_soundness`, `client_complete`, `client_causes` - the recovery verifier,
  the client's delivery trace and the window verifier, with what each accepts,
  counts and refuses.
- `manifest`, `manifest_exact`, `registration`, `registration_exact`, `driver` -
  publication by pointer swap, the four-document transaction with rollback, and
  resuming a campaign.
- `coverage`, `target_set`, `metrics`, `percentiles` - process coverage, the
  target-set digest, the Wilson interval, startup phases and percentiles.

Specification functions (`Next`, `Run`, `Judge`, `Verified`, ...) say what one
step or one run does; classes and loops are proved to compute exactly these; the
lemmas are about all runs of them. The lemmas named `...Exactly` say, on the
inputs, records or files themselves and without these functions, when such a
function answers what.

## Where the code and what it promises part ways

The code is modelled as it is. For each of these a lemma says, for all inputs or
all runs, exactly when the code keeps its promise; where the failing case takes
some steps to get to, another lemma plays them.

- A collector sender whose source path is not spelled as the path library prints
  it (`/x//y`) is accepted live and makes every replay fail
  (`CollectorFreeze.OddSenderSpoilsReplay`); the exact condition is part of
  `CollectorAgreement.LiveReplayAgreement`.
- A record may get to the file whole while its sync fails. The two authorities
  then use its number again, and their own readers refuse the file from the next
  record on (`LoopbackUnreadable.UnsyncedSpoilsJournal`; exactly which files are
  readable: `LoopbackJournal.RunIsReadable`, `DynamicJournal.RunIsReadable`).
  The collector stops instead, and the verifier refuses the line it never
  acknowledged (`CollectorAgreement.UnsyncedLineIsRefused`).
- The dynamic authority's journal refuses a record for capacity, or after a
  write that makes no progress, with a `GateError`. That is a `RuntimeError`
  (src/vllm_hust_ext/exposure_gate.py:36), so `_record` does not catch it and a
  route can stay open without a record (`DynamicSilent.SilentOpeningIsReached`;
  exactly when: `DynamicHistory.OpeningBackedExactly`).
- After an append that failed with an operating-system error a dynamic request
  may be recorded complete on a closed route
  (`DynamicCompletion.LostAppendLetsCompletionThrough`; exactly which steps
  bring this about: `SettledExactly`, and `RunSettledExactly` over runs).
- The loopback writer accepts generations (negative, boolean, fractional) that
  its own reader refuses (`LoopbackUnreadable.UnnaturalRestoreIsUnreadable`;
  exactly when: `LoopbackJournal.RunIsReadable`).
- One lost completion of an unrelated request spoils an open in either of two
  windows, because the route is shut late and without the lock. Between
  installing the candidate and reading the route again, the applied open is
  recorded with a closed route (`LoopbackSpoiled.LostCompletionSpoilsOpen`).
  Between the grant and reading the route for the intent, the intent is recorded
  with a closed route, the shut is overwritten, and the gate route ends up open
  (`LoopbackSpoiled.EarlyShutSpoilsOpen`). Exactly when, in the records and in
  the run: `LoopbackOpens.OpenDisciplineExactly` and `LateShutsSpoilExactly`.
- So a route shut after a lost append need not stay shut until something new is
  granted: an open or a restore granted before may still install its route
  (`LoopbackShut.LateShutUndone`). It may do so exactly while that route is
  still to be installed: `LoopbackShut.ReopensExactly`.
- After a restore a lost completion shuts the route without leaving any trace
  the recovery verifier could see (`LoopbackRecovery.SilentShutIsInvisible`;
  exactly when the predecessor is in place: `InPlaceExactly`).
- The error branch of the loopback handler passes one argument too many
  (experiments/exposure_gate/loopback_traffic.py:1047-1050). That the call fails
  is read into the model; so no run ever records a failed request
  (`LoopbackAdmissions.FailedRequestsLeaveNoTrace`).
- The client numbers a record before writing it, so one failed write followed by
  a good one makes its own reader refuse the trace
  (`ClientTrace.LostThenGoodIsRefused`; exactly when: `ClientTraceIsReadable`).
- A formal record whose artifact root is not spelled as its resolved path can be
  published but not loaded (`Manifest.OddRootIsPublishedInVain`; the exact
  condition is part of `Manifest.PublishedIsLoaded`).
- An asynchronous exception between replacing a registration document and
  remembering it escapes the rollback: exactly that document stays new
  (`Registration.AllOrNothing`).

## Model

| member | source | states |
|---|---|---|
| JournalBytes.WriteAll | experiments/exposure_gate/native_semantic_collector.py:592-605 | The write loop leaves exactly the prefix its short writes got out, and succeeds exactly when all bytes landed and the sync worked |
| JournalBytes.LandedExactly | experiments/exposure_gate/native_semantic_collector.py:592-605 | What gets out is the sum of the counts before the first useless one, as far as there are bytes; the loop stalls iff the bytes outlast these counts and a useless one follows |
| JournalBytes.SplitFrameThen | experiments/exposure_gate/native_semantic_collector.py:867-876 | Complete records read back first, whatever torn tail follows them |
| HashChain.ChainedJournal.Record | experiments/exposure_gate/loopback_traffic.py:168-200 | Sequence, previous digest and file advance together on success; capacity refusals change nothing; failures keep the chain |
| HashChain.AppendKeepsLog | experiments/exposure_gate/loopback_traffic.py:189-200 | Every append, successful or not, keeps the chain and the size bound, and the file stays what the bookkeeping says it is: the records; these and one unacknowledged whole line; whole lines that are no chain; or a file that ends within a line |
| HashChain.LogReadsBack | experiments/exposure_gate/loopback_traffic.py:222-238 | A file without parts of lines decodes to its whole lines, or, once a line follows an unacknowledged one, not at all |
| HashChain.DecodesExactly | experiments/exposure_gate/loopback_traffic.py:222-238 | Decoding yields a list iff line by line it is the canonical form of a record naming its position and its predecessor's digest |
| HashChain.SameTipSameChain | experiments/exposure_gate/native_semantic_collector.py:901-909 | Equal length and closing digest: the same chain, or a collision is returned |
| HashChain.TipFixesChain | experiments/formal_campaign/h3_authority_chain.py:72-93 | The closing digest alone fixes length and content, or a collision is returned |
| CollectorFreeze.CheckSpec | experiments/exposure_gate/native_semantic_collector.py:396-549 | The constructor's loops accept exactly the specs with distinct phase identities, host-assigned senders with distinct pids and the three role slots, and consistent anchors for every phase |
| CollectorFreeze.CheckPhases | experiments/exposure_gate/native_semantic_collector.py:512-549 | One pass with four sets accepts exactly the pairwise distinct, fully named phases |
| CollectorFreeze.OddSenderSpoilsReplay | experiments/exposure_gate/native_semantic_collector.py:198-220 | A well-formed spec and a call the collector admits and acknowledges, after which the verifier refuses the journal |
| CollectorHistory.MappingsStayInjective | experiments/exposure_gate/native_semantic_collector.py:301-325 | In every history the mappings are injective into the preregistered phases |
| CollectorHistory.MappingsWithinPhases | experiments/exposure_gate/native_semantic_collector.py:301-325 | Never more mappings than preregistered phases |
| CollectorHistory.BarrierStampsIncrease | experiments/exposure_gate/native_semantic_collector.py:340-392 | Two uploads of one runtime and rank carry strictly increasing positive barrier stamps |
| CollectorHistory.AdmissionsBounded | experiments/exposure_gate/native_semantic_collector.py:663-676 | No history of admissions is longer than phases * (1 + 2 + 2 * max uploads), whatever senders do |
| CollectorWelcome.WelcomeExactly | experiments/exposure_gate/native_semantic_collector.py:223-392 | After any history, whoever sends what: the predicate over the dictionaries admits exactly the facts the history makes welcome, spelled on the fields (freshness, mapping once to a free phase, one projection, barrier stamps after the fact, not in the future and increasing, rows, digests, upload count), into the phase it joins them to |
| CollectorWelcome.AdmittedWereWelcome | experiments/exposure_gate/native_semantic_collector.py:223-392 | Every entry of every history was welcome when it came |
| Collector.ReadSources | experiments/exposure_gate/native_semantic_collector.py:198-220 | The loop over source files returns their digests exactly when every file still has its frozen digest |
| Collector.CollectorService.AppendEvent | experiments/exposure_gate/native_semantic_collector.py:592-608 | The event carries the running sequence and digest; a failed write latches the service |
| Collector.CollectorService.Accept | experiments/exposure_gate/native_semantic_collector.py:610-690 | One locked intake does to every field and dictionary what the step function says, and returns its ACK |
| Collector.CollectorService.Learn | experiments/exposure_gate/native_semantic_collector.py:661-676 | The dictionaries after an admission |
| CollectorRuns.AckIsDurable | experiments/exposure_gate/native_semantic_collector.py:649-690 | Every ACK names, forever, a whole line on disk holding its own fact, at its own sequence and digest |
| CollectorAcks.AckExactly | experiments/exposure_gate/native_semantic_collector.py:610-690 | In any state a run reaches without a failure: a call from a frozen sender with unchanged sources and a new, welcome fact gets its ACK iff its line gets to the disk whole and synced, as the next record, saying just that; any other call changes nothing and gets none |
| CollectorRuns.FileBeginsWithAcknowledged | experiments/exposure_gate/native_semantic_collector.py:592-608 | In every reachable state the file begins with exactly the acknowledged records, and holds nothing else unless an append failed |
| CollectorRuns.AcksCountRecords | experiments/exposure_gate/native_semantic_collector.py:649-690 | One record per ACK, plus the start record |
| CollectorRuns.AcksNameRecords | experiments/exposure_gate/native_semantic_collector.py:649-690 | The n-th ACK carries the sequence number of the n-th record after the start record |
| CollectorRuns.NoAckAfterFailure | experiments/exposure_gate/native_semantic_collector.py:600-616 | After one failed write or sync no ACK is returned and no byte or field changes any more |
| CollectorRuns.RunOnlyAppends | experiments/exposure_gate/native_semantic_collector.py:610-690 | Later calls only extend file, records and ACKs |
| CollectorRuns.JournalIsBounded | experiments/exposure_gate/native_semantic_collector.py:509-548 | The journal of any run has at most 1 + phases * (1 + 2 + 2 * max uploads) records |
| CollectorReplay.ParseEvents | experiments/exposure_gate/native_semantic_collector.py:867-900 | The parsing loop returns the events exactly when every line parses |
| CollectorReplay.VerifyJournal | experiments/exposure_gate/native_semantic_collector.py:859-1015 | The verifier's loop over local dictionaries returns exactly the specified report or the first rejection |
| CollectorReport.AcceptsExactly | experiments/exposure_gate/native_semantic_collector.py:901-984 | Events are accepted iff they are a sealed chain of one start and then facts each welcome after the ones before it, from frozen senders with the frozen sources, and extend the given prefix |
| CollectorReport.ReportExactly | experiments/exposure_gate/native_semantic_collector.py:957-1008 | Every number of an accepted journal's report: mapped runtimes; those for which exactly the ranks 0 and 1 have uploaded; those for which exactly these have uploaded, later, what they had projected, the match spelled on the fields; the phases; and which of them are withheld without prefix or accept times |
| CollectorReport.VerdictExactly | experiments/exposure_gate/native_semantic_collector.py:859-1015 | The same for the file's bytes: accepted iff its lines are such a journal, and then reported so |
| CollectorAgreement.LiveReplayAgreement | experiments/exposure_gate/native_semantic_collector.py:859-984 | After any calls under a monotonic clock, a failed append having left nothing in the file, the verifier given (sequence, previous) accepts iff all admitted senders' paths are normal, with the live dictionaries, verified chronology and matching counts |
| CollectorAgreement.UnsyncedLineIsRefused | experiments/exposure_gate/native_semantic_collector.py:592-616 | When the sync of a whole line fails, the file is for good the one a working sync would have left; the verifier given the published prefix refuses it, at the prefix check if the paths are normal |
| CollectorAgreement.ReplayEstablishes | experiments/exposure_gate/native_semantic_collector.py:901-984 | Whatever replay accepts is a sealed chain of admissible facts that folds to the replay's dictionaries |
| CollectorAgreement.AcceptedJournalBounded | experiments/exposure_gate/native_semantic_collector.py:957-984 | An accepted journal obeys the admission bound, whoever wrote it |
| CollectorAgreement.PrefixFixesJournal | experiments/exposure_gate/native_semantic_collector.py:978-984 | Two journals accepted against one acknowledged prefix are equal event by event, or collide |
| CollectorAgreement.KvCompletionOrdered | experiments/exposure_gate/native_semantic_collector.py:957-977 | kv_complete <= complete <= mappings <= phases, and each KV-complete runtime has for both ranks a projection and a later matching upload of the same process |
| DynamicSafety.DynamicSafety | experiments/formal_campaign/h3_dynamic_authority.py:501-818 | Every interleaving: an open route is the current unrevoked enrollment and generation; a revoked enrollment never acts again; launches, kernels and generations are enrolled once, generations growing; a request failing under an older enrollment changes nothing |
| DynamicSafety.NextKeeps | experiments/formal_campaign/h3_dynamic_authority.py:566-679 | Each separately locked stretch keeps the whole invariant |
| DynamicHistory.RunGrows | experiments/formal_campaign/h3_dynamic_authority.py:270-279 | Generation, revocations, used launches and kernels, seen ids and records only grow along a run |
| DynamicHistory.RequestsInOrder | experiments/formal_campaign/h3_dynamic_authority.py:693-799 | Each bound request was admitted before, each completed one bound before, under the same ids and enrollment |
| DynamicEvidence.EvidenceBehindRecords | experiments/formal_campaign/h3_dynamic_authority.py:501-520 | In every interleaving each opening, admission, binding and completion on record goes back to an action that had lease, sources, members and listener and a covered plan, a binding twice and the peer too; each enrollment to one in order |
| DynamicEvidence.ArriveExactly | experiments/formal_campaign/h3_dynamic_authority.py:693-718 | A new, well-formed request: on an open route with all evidence it is admitted iff the record is written; on an open route lacking any of it, the route is shut, its enrollment revoked and no admission recorded; on a shut route nothing happens |
| DynamicEvidence.QueryExactly | experiments/formal_campaign/h3_dynamic_authority.py:513-520 | A writer's query shuts an open route and revokes its enrollment iff some evidence is missing; no query does anything else |
| DynamicEvidence.AdmitExactly | experiments/formal_campaign/h3_dynamic_authority.py:656-679 | The route opens iff the current, unrevoked enrollment is named under the lease with all evidence, unless writing its record fails on the disk; without that evidence it is shut and revoked; otherwise nothing changes |
| DynamicEvidence.BindExactly | experiments/formal_campaign/h3_dynamic_authority.py:739-772 | A request is bound iff its enrollment is current and unrevoked and its route open, both evidences are whole, the peer is there and the record is written |
| DynamicEvidence.FinishExactly | experiments/formal_campaign/h3_dynamic_authority.py:776-799 | A completion is recorded iff the enrollment is current and unrevoked, the evidence whole, the backend there and the record written |
| DynamicEvidence.EnrollExactly | experiments/formal_campaign/h3_dynamic_authority.py:574-655 | Under the lease an enrollment first closes and revokes the current one; the candidate is installed one generation on iff that was recorded, the predecessor is gone and its launch and kernel are new |
| DynamicEvidence.CloseExactly | experiments/formal_campaign/h3_dynamic_authority.py:566-573 | A close for the current generation, the end of the owner and a failed request of the current enrollment shut the route and revoke, recorded or not; any other of these changes nothing |
| DynamicEvidence.FailureExactly | experiments/formal_campaign/h3_dynamic_authority.py:807-818 | A request in flight that fails shuts the route and revokes its enrollment iff that is still the current one |
| DynamicEvidence.AnswersExactly | experiments/formal_campaign/h3_dynamic_authority.py:566-679 | The three control operations succeed exactly when the record that completes them is written, closing, installing or opening being in order |
| DynamicRequests.EachRequestOnce | experiments/formal_campaign/h3_dynamic_authority.py:693-799 | In every interleaving a request id is admitted, bound and completed at most once each, and only if marked as seen |
| DynamicHistory.OpeningBackedExactly | experiments/formal_campaign/h3_dynamic_authority.py:656-679 | Opening leaves an open route without a record exactly when the record is refused for capacity or its write makes no progress, and the enrollment was never opened |
| DynamicSilent.SilentOpeningIsReached | experiments/formal_campaign/h3_dynamic_authority.py:152-184 | For every configuration the run of one enrollment and one admission under a write without progress ends on such a route |
| DynamicHistory.OpenRoutesAreRecorded | experiments/formal_campaign/h3_dynamic_authority.py:656-679 | Without such refusals every reachable open route has its opening record |
| DynamicCompletion.SettledExactly | experiments/formal_campaign/h3_dynamic_authority.py:270-279 | If every admitted request's enrollment is revoked or still open, one step ends that iff it loses an append, with an operating-system error, on the open route of an enrollment some request carries |
| DynamicCompletion.RunSettledExactly | experiments/formal_campaign/h3_dynamic_authority.py:270-279 | Over whole runs: every admitted request stays settled throughout iff no step loses such an append |
| DynamicCompletion.CompletesOnOpenRoute | experiments/formal_campaign/h3_dynamic_authority.py:776-799 | Unless a step of the run has lost such an append, a completion is recorded only while its enrollment's route is open |
| DynamicCompletion.LostAppendLetsCompletionThrough | experiments/formal_campaign/h3_dynamic_authority.py:776-818 | In any configuration and any run with a request in flight: another request's lost admission shuts the route, and the first is then recorded complete |
| DynamicCompletion.FlightIsReached | experiments/formal_campaign/h3_dynamic_authority.py:574-772 | Such a run exists: enroll, open, admit and bind bring a request in flight |
| DynamicJournal.ReadDynamicJournal | experiments/formal_campaign/h3_dynamic_authority.py:189-222 | The reader's loop accepts exactly the canonical, chained, in-order, single-owner journals |
| Readers.DynamicReadExactly | experiments/formal_campaign/h3_dynamic_authority.py:189-221 | The same for the dynamic journal: within 32 MiB, strictly later records of one owner and policy, and exactly the first a start |
| DynamicJournal.RunIsReadable | experiments/formal_campaign/h3_dynamic_authority.py:152-222 | Whatever the interleaving and whatever appends failed, a file that has no part of a line before its end reads back as its records, with the unacknowledged line if it has one; it is refused iff a line follows such a line or it ends within a line |
| DynamicJournal.AcceptedJournalsAgree | experiments/formal_campaign/h3_dynamic_authority.py:189-222 | The closing digest of an accepted journal fixes all of it, or a collision is returned |
| DynamicService.Service.CloseRoute | experiments/formal_campaign/h3_dynamic_authority.py:270-279 | Route and enrollment go first, the record follows, on every field |
| DynamicService.Service.ApplyEnroll | experiments/formal_campaign/h3_dynamic_authority.py:574-655 | Close, then install or refuse, on every field |
| DynamicService.Service.ApplyAdmit | experiments/formal_campaign/h3_dynamic_authority.py:656-679 | Open under a fresh recheck, or close |
| DynamicService.Service.AdmitRequest | experiments/formal_campaign/h3_dynamic_authority.py:710-731 | The first locked stretch of a handler, with its local variables |
| DynamicService.Service.BindPeer | experiments/formal_campaign/h3_dynamic_authority.py:739-772 | The stretch around writing the request, rechecked twice |
| DynamicService.Service.CompleteRequest | experiments/formal_campaign/h3_dynamic_authority.py:776-799 | The completing stretch |
| DynamicService.Service.FailRequest | experiments/formal_campaign/h3_dynamic_authority.py:807-818 | Only the admitting enrollment may be closed by a failure |
| LoopbackScripts.NextReach | experiments/exposure_gate/loopback_traffic.py:799-867 | No step puts a route, record or decision into a locked stretch but what the granted operation brings |
| LoopbackJournal.ReadTrafficJournal | experiments/exposure_gate/loopback_traffic.py:206-279 | The reader's loop accepts exactly the canonical, chained, single-identity journals with natural generations, admissions only on open and rejections only on closed routes |
| Readers.TrafficReadExactly | experiments/exposure_gate/loopback_traffic.py:203-280 | A list is read from a file iff it is whole lines within 4 MiB, these are the chained records, the first a start, and each record has its process, natural generation, digest spelling and a decision that goes by its route |
| LoopbackJournal.RunIsReadable | experiments/exposure_gate/loopback_traffic.py:168-279 | The same for the traffic journal, which is besides accepted only if each generation in it is natural |
| LoopbackJournal.NaturalCallersStayReadable | experiments/exposure_gate/loopback_traffic.py:819-866 | If origin and callers use natural generations, so does every record of every run and every unacknowledged line |
| LoopbackJournal.AcceptedTrafficAgrees | experiments/exposure_gate/loopback_traffic.py:206-279 | Accepted journals with one closing digest are equal, or collide |
| LoopbackAdmissions.AdmittedOnce | experiments/exposure_gate/loopback_traffic.py:966-998 | For every thread schedule a non-empty request id is admitted or rejected at most once, unacknowledged lines included |
| LoopbackAdmissions.FailedRequestsLeaveNoTrace | experiments/exposure_gate/loopback_traffic.py:1040-1052 | No run ever journals a request error; a failing request ends without a record and leaves the route alone |
| LoopbackGate.FormalNeverGates | experiments/exposure_gate/loopback_traffic.py:607-646 | With a formal registration no run ever has a gate route, not even in a pending step or an in-flight request |
| LoopbackGate.GateAdmissionsAreObserved | experiments/exposure_gate/loopback_traffic.py:767-783 | With an observer no request is admitted on a gate route without an observation of the same stretch, even with unlocked failures in between |
| LoopbackLicence.GrantsExactly | experiments/exposure_gate/loopback_traffic.py:819-866 | An open or restore request begins a stretch iff it is in order and the lock is free, an open also for the generation after an open route's; and what it then writes and installs |
| LoopbackLicence.RecordsAreLicensed | experiments/exposure_gate/loopback_traffic.py:758-1046 | In every run every record but the start goes back to an action that licenses it, intents to a request in order, made under the lease and agreeing with the observer's binding |
| LoopbackLicence.StaleEvidenceShuts | experiments/exposure_gate/loopback_traffic.py:767-798 | A query or a request up for decision leaves the route alone iff it is no watched gate route, or lease and observation for its snapshot hold; otherwise the next step shuts it |
| LoopbackLicence.FreshEvidenceDecides | experiments/exposure_gate/loopback_traffic.py:981-1004 | Undisturbed, under fresh evidence: the request is decided by the route as it is, with the observation if that is a watched gate route |
| LoopbackLicence.StaleEvidenceTurnsAway | experiments/exposure_gate/loopback_traffic.py:981-1004 | Under stale evidence it is turned away, behind the record of the loss |
| LoopbackUpstream.CompletionsAreServed | experiments/exposure_gate/loopback_traffic.py:1002-1032 | In every run every completion, an unacknowledged line included, names the candidate's host and port if its route shows a gate fence and the predecessor's if it shows the predecessor's, the digest of its own bytes, and follows the admission of the same request on the same route |
| LoopbackOpens.OpenDisciplineExactly | experiments/exposure_gate/loopback_traffic.py:819-847 | Every run, refused appends included: each applied open follows its own intent with only completions between and agrees with it where routes are shown open; so generation, fence and succession match everywhere iff both records show open routes everywhere |
| LoopbackOpens.LateShutsSpoilExactly | experiments/exposure_gate/loopback_traffic.py:758-847 | The discipline fails iff a late shut fell just before an open read the route for its intent or its applied record, and that open was then recorded as applied |
| LoopbackOpens.OpenDiscipline | experiments/exposure_gate/loopback_traffic.py:819-847 | In particular it holds in every run without a refused append |
| LoopbackSpoiled.LostCompletionSpoilsOpen | experiments/exposure_gate/loopback_traffic.py:758-765 | The late window: from any open in progress with a request in flight, one lost completion yields an undisciplined but untorn journal |
| LoopbackSpoiled.EarlyShutSpoilsOpen | experiments/exposure_gate/loopback_traffic.py:819-847 | The early window: from any granted open with a lost completion pending, the journal is undisciplined and the gate route ends up open in spite of the shut |
| LoopbackSpoiled.MidOpenIsReached | experiments/exposure_gate/loopback_traffic.py:819-847 | A state for the late window is reached from the start in seven steps |
| LoopbackSpoiled.EarlyOpenIsReached | experiments/exposure_gate/loopback_traffic.py:819-847 | A state for the early window is reached from the start in six steps |
| LoopbackShut.ReopensExactly | experiments/exposure_gate/loopback_traffic.py:758-866 | In any run, a shut route may open again without a further grant iff the stretch under way still has a live route to install, the disk taking its intent where that is still to be written |
| LoopbackShut.ShutHolds | experiments/exposure_gate/loopback_traffic.py:758-866 | From any state: with no route pending a shut route stays shut while nothing is granted, and any route that is installed was pending at the shut |
| LoopbackShut.LateShutUndone | experiments/exposure_gate/loopback_traffic.py:758-866 | A late shut anywhere between the grant of an open or restore and the installation of its route can be undone without a further grant |
| LoopbackUnreadable.UnnaturalRestoreIsUnreadable | experiments/exposure_gate/loopback_traffic.py:852-866 | Any run that restores a route with an unnatural generation leaves an untorn journal its own reader refuses |
| LoopbackUnreadable.UnsyncedSpoilsJournal | experiments/exposure_gate/loopback_traffic.py:168-200 | Any run with a request in flight: its completion is written whole but not synced, and with the next record the journal is unreadable |
| LoopbackObserve.ObserveGateTransitions | experiments/exposure_gate/loopback_traffic.py:282-366 | The loop derives exactly the open, close and restore facts, refusing any applied open not bound to the record before it |
| LoopbackObserve.ObservableExactly | experiments/exposure_gate/loopback_traffic.py:282-341 | With an observer and natural generations, refused appends included, facts can be derived from a run's untorn journal iff no applied open has a completion right before it or shows a closed route |
| LoopbackObserve.FormalNeverOpens | experiments/exposure_gate/loopback_traffic.py:607-646 | With a formal registration no run ever journals an applied open |
| LoopbackFacts.ObservedExactly | experiments/exposure_gate/loopback_traffic.py:282-341 | Facts are derived iff the journal is readable and each applied open directly follows the intent for its generation and fence, with a complete authorization for that generation and an observation digest, spelled field by field |
| LoopbackFacts.ObservedTells | experiments/exposure_gate/loopback_traffic.py:333-354 | The facts are the journal's opens, closes and restores, one for one and in order, each with its record's number and route, an open with its intent's authorization and observation, a close with its reason |
| LoopbackService.Authority.Record | experiments/exposure_gate/loopback_traffic.py:758-765 | A failed append shuts the route and revokes nothing |
| LoopbackService.Authority.ApplyOpen | experiments/exposure_gate/loopback_traffic.py:819-847 | An undisturbed open does to route and journal what draining the state machine's script does |
| LoopbackService.Authority.ApplyRestore | experiments/exposure_gate/loopback_traffic.py:852-866 | The same for a restore |
| LoopbackService.Authority.Decide | experiments/exposure_gate/loopback_traffic.py:981-1004 | The admitting stretch: refresh, read the route once, journal by that reading |
| LoopbackService.Authority.Screen | experiments/exposure_gate/loopback_traffic.py:966-979 | The duplicate check marks an id seen or journals the duplicate |
| LoopbackService.Authority.Complete | experiments/exposure_gate/loopback_traffic.py:1005-1046 | An unlocked completion, and the late shutting when its append failed |
| LoopbackService.DrainedIsTicks | experiments/exposure_gate/loopback_traffic.py:799-867 | An undisturbed stretch is one of the state machine's own schedules |
| RecoveryChain.VerifyRecoveryEvents | experiments/formal_campaign/h3_authority_chain.py:59-144 | The verifier's passes return exactly the specified receipt or a rejection |
| RecoveryChain.AcceptedRecoveryMeans | experiments/formal_campaign/h3_authority_chain.py:107-138 | An accepted journal has one restore, its two records adjacent, after the restart and by completion; every record by completion is on the prepared route and every request decided by then was admitted |
| RecoveryExact.RecoveredExactly | experiments/formal_campaign/h3_authority_chain.py:59-144 | A list is accepted iff it is one chain of one process in time, begun once before the fault with this launch and registration on the prepared route, on that route without any open up to completion, with one adjacent restore of its generation between restart and completion; the receipt names that restore and the last digest |
| RecoveryChain.ChainDigestFixesEvents | experiments/formal_campaign/h3_authority_chain.py:72-93 | Equal reported chain digests mean equal event lists in length and content, or a collision |
| LoopbackRecovery.RestoringRunIsAccepted | experiments/formal_campaign/h3_authority_chain.py:70-144 | Completeness: every run from the prepared route with route-preserving operations and one timely restore has that route in place by completion, and is accepted with it and the journal's own digest whatever but another restore follows, lost appends included |
| LoopbackRecovery.InPlaceExactly | experiments/exposure_gate/loopback_traffic.py:758-866 | Over all route-preserving runs, lost appends included, the prepared route is in place iff no failed append has closed it since a restore last installed it |
| LoopbackRecovery.SilentShutIsInvisible | experiments/formal_campaign/h3_authority_chain.py:133-144 | In any accepted run with a request in flight, losing its completion shuts the route and leaves the verdict unchanged |
| ClientTrace.ReadClientTrace | experiments/formal_campaign/h3_client_trace.py:184-208 | The reader's loop accepts exactly the chained traces of one client with strictly increasing time |
| Readers.ClientReadExactly | experiments/formal_campaign/h3_client_trace.py:184-208 | The same for the client's trace: within 64 MiB, strictly later records of one client |
| ClientTrace.ClientJournal.Record | experiments/formal_campaign/h3_client_trace.py:79-100 | The number is taken before the write and kept when it fails |
| ClientTrace.ClientTraceIsReadable | experiments/formal_campaign/h3_client_trace.py:79-208 | An untorn trace is accepted as written iff no record went through after one had failed |
| ClientTrace.LostThenGoodIsRefused | experiments/formal_campaign/h3_client_trace.py:79-208 | Any trace followed by one lost and one written record is refused |
| RequestNames.NamesDiffer | experiments/formal_campaign/h3_client_trace.py:115-116 | Padded request names are injective in the request number, past five digits too |
| RequestNames.NameReads | experiments/formal_campaign/h3_client_trace.py:115-116 | A name ends in the request's number in decimal, at least five digits, no zeros in front of more |
| ClientWindow.VerifyWindow | experiments/formal_campaign/h3_client_trace.py:211-440 | The verifier's loops and tables return exactly the specified outcome: unknown, rejected, or the counts |
| ClientWindow.CollectAuthority | experiments/formal_campaign/h3_client_trace.py:322-345 | One pass builds the rows of every request and finds any reused admission id, changed body or foreign method |
| ClientSoundness.LostIsExact | experiments/formal_campaign/h3_client_trace.py:346-360 | With complete coverage every id is sent and finished once, and lost_requests is the number without status 200 by their deadline |
| ClientSoundness.ServedAreBackedApart | experiments/formal_campaign/h3_client_trace.py:346-420 | Every other request has an admission and a completion with sent <= admit < complete <= finish and equal bytes; different requests have different ones with different admission ids |
| ClientComplete.CountedExactly | experiments/formal_campaign/h3_client_trace.py:211-440 | The window is covered completely iff both files read back and, on their records: one start and one stop of the frozen client, one dispatch on schedule and one finish per request and no other, sent before, across and after the fault; one authority process, launch and registration, distinct admission ids for the frozen POST; and each timely response vouched for by exactly one admission and one completion in order, with its bytes, the registered backend and the oracle |
| ClientComplete.CountsAreExact | experiments/formal_campaign/h3_client_trace.py:346-440 | Then lost is the number of requests without status 200 by their deadline, reused the number of served ones whose response id an earlier one carries, and duplicates the decisions on the window's requests less the requests decided about |
| ClientCauses.OutcomeHasCause | experiments/formal_campaign/h3_client_trace.py:211-440 | A window reported as unknown lacks something (a file, a marker, a dispatch on schedule, the fault, the authority's identity, a readable response); a rejected one has something broken (chain, process, launch, markers, timeout, body, admission ids, an unsettled request), each spelled on the records |
| ClientSoundness.ProxyNeverDuplicates | experiments/formal_campaign/h3_client_trace.py:421-440 | For every thread schedule and whatever appends failed, duplicate_admissions is 0 on the journal the proxy wrote, unless it has part of a line before its end |
| Manifest.Store.WriteFormalManifest | experiments/false_effective/runner.py:3113-3153 | The files after any number of its steps, torn temporary files included |
| Manifest.Store.LoadFormalManifest | experiments/false_effective/runner.py:3197-3250 | The loader's loop returns exactly the specified list or a rejection |
| Manifest.StoppedEarlyChangesNothing | experiments/false_effective/runner.py:3113-3153 | Dying after any step but the last, the loader returns exactly what it returned before |
| Manifest.PublishedIsLoaded | experiments/false_effective/runner.py:3113-3250 | After the last step the loader returns the written list in order, iff artifact roots are spelled as resolved |
| ManifestExact.LoadsExactly | experiments/false_effective/runner.py:3197-3250 | The loader returns a list iff the current file points to a generation and the digest of its index, the index gives the list's digest, the list file is its canonical form, and each entry names its record's file by artifact root, digest and content |
| ManifestExact.IndexedExactly | experiments/false_effective/runner.py:3128-3146 | A list can be published iff each row's record file, where its artifact root resolves to, parses to that row |
| Manifest.OddRootIsPublishedInVain | experiments/false_effective/runner.py:3113-3250 | Any record whose artifact root does not print back as it resolves can be published, and the loader then refuses the generation |
| Registration.Repository.CommitTransition | experiments/false_effective/h1_atomic_registration.py:382-446 | For every combination of failing operations, exceptions during the rollback included: the result, and for each document whether it ends old or new |
| Registration.Repository.Rollback | experiments/false_effective/h1_atomic_registration.py:432-441 | Every document whose undo works before any unexpected exception is back at its backup, and only those |
| Registration.AllOrNothing | experiments/false_effective/h1_atomic_registration.py:409-446 | Committed: all four files new. Failed with a clean rollback: all four old, or, after an exception between a replace and its bookkeeping, exactly that one new |
| Registration.MixNeedsFailedUndo | experiments/false_effective/h1_atomic_registration.py:432-441 | A file changed without a commit holds the packet's bytes, and is that one document or the commit reported a failed or aborted rollback |
| Registration.RegistersOnce | experiments/false_effective/h1_atomic_registration.py:159-446 | A packet is built iff the documents are unregistered and the candidate has the three arms; committed, all four files are as it says, and over them it never validates again, or a collision exists |
| RegistrationExact.BuildsFromUnregistered | experiments/false_effective/h1_atomic_registration.py:159-316 | A packet is built iff study and deployment are on disk unregistered and inadmissible, the registry empty, the matrix without experiment, and the candidate has the three arms under three ids |
| RegistrationExact.ValidatesExactly | experiments/false_effective/h1_atomic_registration.py:319-379 | A packet is taken iff it is within its boundary, its four rows name the four files in order with the digests on disk and to come, under the rows' digest, and its documents agree |
| RegistrationExact.CommitExactly | experiments/false_effective/h1_atomic_registration.py:382-446 | For every combination of faults, spelled on them: a valid packet is committed iff nothing fails; which failures are reported how; and a document is new iff committed, not undone, or replaced right before the exception |
| RegistrationExact.CommittedIsRegistered | experiments/false_effective/h1_atomic_registration.py:382-446 | After any commit the four documents on disk are the packet's, registered and admissible; the deployment names the digest of the study file on disk, and its source lists the ids in the registry file |
| RegistrationExact.CommitPublishesCandidate | experiments/false_effective/h1_atomic_registration.py:159-446 | Committing a built packet puts the candidate's contents and adapters on disk, with as many source lists as before |
| Registration.CannotCommitTwice | experiments/false_effective/h1_atomic_registration.py:345-351 | A built packet is invalid over its own result, or a collision is returned |
| Driver.Schedule | experiments/false_effective/h1_formal_driver.py:86-99 | The nested loops give the nine positions of the frozen square, or refuse |
| Driver.SquareIsLatin | experiments/false_effective/harness.py:28-32 | Each arm occurs once per repetition and once per place |
| Driver.SquareIsCyclic | experiments/false_effective/harness.py:28-32 | Start k is place k % 3 of repetition k / 3, and its arm the one that many steps on in the cycle vanilla, manual, ecpa |
| Driver.Campaign.LoadExistingRecords | experiments/false_effective/h1_formal_driver.py:301-339 | The loop counts a contiguous recorded prefix, or is blocked by an interrupted, foreign or out-of-order start |
| Driver.ScannedExactly | experiments/false_effective/h1_formal_driver.py:301-339 | m records are counted iff exactly the first m starts are there and all are soundly recorded |
| Driver.Campaign.RunCampaign | experiments/false_effective/h1_formal_driver.py:358-428 | One invocation, interrupted anywhere, does to the starts what the step function says |
| Driver.ResumesExactlyOnce | experiments/false_effective/h1_formal_driver.py:380-424 | Over any invocations the starts are a schedule prefix, soundly recorded but for the last, and no position is launched twice |
| Driver.InvokesExactly | experiments/false_effective/h1_formal_driver.py:358-428 | After any invocations, one more launches nothing if it is not admitted, finds the lock taken, fails its publication or follows an unsound start; otherwise the next starts, turn by turn, until one does not go on, the last as its turn left it |
| Driver.InterruptedBlocks | experiments/false_effective/h1_formal_driver.py:318-322 | An interrupted or unsound start blocks every later launch for good |
| Driver.FreeLaunchesNext | experiments/false_effective/h1_formal_driver.py:385-424 | Without one, an invocation that gets going launches the next unlaunched position |
| Coverage.ValidateSnapshot | experiments/false_effective/harness.py:835-870 | The loop reports exactly the first fault: missing, malformed, repeated slot, unordered |
| Coverage.FormalProcessCoverage | experiments/false_effective/harness.py:873-1012 | The coverage and the reasons appended to the shared list, case by case |
| Coverage.CoverageMeans | experiments/false_effective/harness.py:943-1000 | A coverage lies in [0, 1] and is 1 exactly when the observed process keys are the required ones |
| Coverage.CoverageIsShare | experiments/false_effective/harness.py:943-1000 | It is the number of required processes that were observed over the number required |
| Coverage.CoverageExactly | experiments/false_effective/harness.py:873-1012 | There is a coverage iff the snapshot is a list of different slots in order and the observed processes are different ones of it, as the transition froze them; then exactly a contradicted claim and a contradicted report are reasons; otherwise there is one reason |
| Coverage.FalseEffectiveMeans | experiments/false_effective/harness.py:1251-1267 | With a PASS a claim is false-effective iff the scenario excludes it, nothing was invoked, or, in a formal start, some required process was not observed |
| Coverage.EffectiveMeansObserved | experiments/false_effective/harness.py:1251-1315 | A passing, not false-effective claim: every required process was observed on its host, two of them as two Linux processes |
| TargetSet.DigestStandsForSet | experiments/exposure_gate/loopback_traffic.py:82-129 | Same members, same digest; same digest, same members or a collision |
| TargetSet.FrozenExactly | experiments/exposure_gate/loopback_traffic.py:82-129 | A digest is given exactly to lists of well-formed, different slots in order |
| Metrics.WilsonIsInside | experiments/false_effective/harness.py:1703-1711 | Over the reals, 0 <= low <= p <= high <= 1 for every numerator <= denominator, denominator >= 3 |
| Metrics.WilsonSolvesScore | experiments/false_effective/harness.py:1703-1711 | Both ends x solve n (x - p)^2 = z^2 x (1 - x), and they differ |
| Metrics.PhaseLatencies | experiments/formal_campaign/analyze.py:934-946 | The cursor walk succeeds exactly on gap-free, forward phases; the latencies then sum to exactly ready minus start and the sum check cannot fire |
| Metrics.GapFreeMeans | experiments/formal_campaign/analyze.py:934-946 | Gap-free: the first phase starts at the start, the last ends at readiness, each starts where the one before it ended and none runs backwards |
| Percentiles.PercentileIsBetween | experiments/formal_campaign/analyze.py:1178-1184 | A percentile lies between two of the values, and is the least and greatest at the ends |
| Percentiles.PercentileInterpolates | experiments/formal_campaign/analyze.py:1178-1184 | Between two neighbours of the ordered values the percentile moves in proportion to the position (n - 1) q |
| Percentiles.PercentileIgnoresOrder | experiments/formal_campaign/analyze.py:1178-1184 | Permuting the values changes nothing |
| Percentiles.PercentilesAreOrdered | experiments/formal_campaign/analyze.py:977-991 | Monotone in the quantile, so median <= p95 <= p99 |

## Left out

- CollectorAgreement.KvCompletionOrdered: assumes the sender table the constructor froze, because the replaying verifier does not check the roles and ranks of the spec again.
- CollectorAgreement.LiveReplayAgreement: says nothing about a file that ends in part of a line, because whether that part parses is up to the parser.
- LoopbackJournal.RunIsReadable: says nothing about a file with part of a line before its end, because whether it parses together with the next line is up to the parser.
- DynamicJournal.RunIsReadable: the same.
- LoopbackObserve.ObservableExactly: is about journals in which failed appends left nothing.
- ClientSoundness.ProxyNeverDuplicates: says nothing about a file with part of a line before its end, as above.
- ClientTrace.ClientTraceIsReadable: is about traces in which failed writes left nothing.
- LoopbackService.Authority.ApplyOpen: covers a stretch no unlocked step disturbs; the disturbed ones are covered by the state machine, of which this is one schedule.
- LoopbackService.Authority.ApplyRestore: likewise covers an undisturbed stretch only.
- LoopbackRecovery.RestoringRunIsAccepted: up to completion it admits only operations that leave the route alone, as the verifier refuses a record on any other route; interrupted control threads are left out there.
- Manifest.StoppedEarlyChangesNothing: assumes a fresh generation name, as the random name makes it.
- ClientWindow.VerifyWindow: walks requests by number, where the program walks a set; when several requests are bad in different ways, which rejection comes first may differ.
- Metrics.WilsonIsInside: over the reals, with the square root's result taken as exact; floating-point rounding is not modelled.
- JSON text, base64 layers and per-field type checks: one parsing function per journal stands for them, injective with its encoder.
- Sockets, HTTP, signals other than an interrupted control thread, `/proc`, subprocesses, file modes and git: inputs to the steps, or absent. A signal in the middle of a single write is not modelled.
- The host observer, membership observation, plan artifacts and attestation: their answers are inputs.
- Clocks are inputs; of the two clocks in a loopback record only the monotonic one is kept.
- The `ack_sha256` of the collector's ACK, and the archive identity checks around its file.
- Unicode white space beyond ASCII when trimming host and role names.
- The temporary directory of the registration commit is not removed in the model, and power loss inside the commit is not modelled.
- `verify_native_recovery`, the schema validations, preflights, candidate and registration field checklists: each branch settles by reading.
- Bootstrap confidence intervals, conflict metrics, benchmarks and report rendering.
