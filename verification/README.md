# Oiax: the notification ledger and the promotion protocol

This project models the parts of Oiax that must stay right while many runs work
at once, and proves what they promise.

**The notification delivery ledger.** A ledger is one graph's record of accepted
notification policy, lifecycle events and deliveries, kept as a Git note and
changed only by compare-and-swap.

- `Model`, `Codec` and `Reducer` are the ledger's data, its well-formedness and
  exact encoded size, and its transitions: what each one decides and computes.
- `MutableLedger` runs the transitions as the source does, loop by loop on a
  cloned ledger object, and proves each one equal to its function in `Reducer`.
  `Sharing` models what ledgers point to, with memory made explicit: attempt
  slices with spare room, messages and subscriptions that a transition hands on
  from its input. A failed or racing transition writes to nothing that existed
  before it, so every earlier snapshot reads as it did.
- `Guard` is the append-only guard a store applies to arbitrary transitions, and
  what follows for whole histories. `Invariant`, `Agreement`, `Admission` and
  `Operations` find the inductive invariant that validity alone is not, and prove
  that the guard never refuses a legitimate step.
- `Verdicts`, `Acceptance`, `Claiming` and `Outcomes` say in terms of records and
  numbers when each step acts, what it then changes, and why it refuses otherwise:
  what is accepted, who starts over, what can be claimed, renewed and sent, what a
  result does to its record and when a failure is the last one.
- `Receipts`, `Capacity`, `Claiming`, `Leases`, `Outcomes`, `Creation` and
  `Timeliness` prove the delivery protocol over whole runs: receipts commute and
  are never refused, room reserved before a send pays for results and renewals, no
  record fails more than 24 times but for outages, the sending windows of batches
  follow each other, and exactly when a cutoff moves back, comes to lie before its
  destination's activation, or lets in events from before it.
- `Samples`, `Counterexamples` and `Renewals` hold the inputs on which a tempting
  property fails.
- `Schedule`, `Listing`, `Dispatch` and `Runtime` are one run: the fair choice of
  due work, the claim, the send loop, the receipts, activation, operator reset and
  observation. `Notes` and `Store` are the compare-and-swap ref with its tip cache
  and the retrying commit.

**Around the ledger.** `IntervalScan` (discovery by interval splitting), `Cycle`
(the promotion-cycle search), `Backflow` (superseding requests while other runs do
the same, each on its own clone, and exactly when that loses a returned head),
`Returned` (a commit once returned is never proposed again), `Markers` (the request
body's metadata blocks) and `Plans` (the plan builder and replanning).

Digests are terms: one constructor for each tag a digest is taken under, so two
digests are equal only for equal parts. Commits are terms for the same reason.
Instants are natural numbers of nanoseconds since the zero instant. What the
environment decides (other writers, failing commands, clock readings, a receiver's
answer) is a parameter of the operation it affects.

## What turned out to need a condition

- Validity is not inductive: a valid ledger may hold a retryable record without a
  message, and its late acceptance is then an invalid delivered one.
  `Agreement.LateAcceptanceNeedsItsMessage` gives the exact condition,
  `Counterexamples.LateAcceptanceWithoutMessage` such a ledger, and the invariant
  (`Invariant.GoodRecord`: attempts imply a message) closes the gap.
- `SaveMessage` checks lengths but not control characters, which validation
  refuses in titles, and it accepts a record that was retired without a message,
  which the guard does not let change. `Agreement.SavedMessageCommits` says exactly
  which saved messages the store commits. A title with control characters is not
  one the program makes: every rendered title passes through `CleanText`
  (internal/notification/render.go:31-45, 145), so of rendered messages only the
  second kind is refused (`Agreement.RenderedMessageCommits`). The delivery run
  saves for no such record (`Dispatch.FirstWriteKeeps`).
- Renewals are not charged for capacity. On a ledger whose results are paid for, a
  single renewal always fits, and a batch renewal fits unless nothing is owed to
  its destination any more and the ledger has no room left for the longer instant
  (`Operations.RenewalsCommitExactly`); one open record's reserve pays for all of a
  renewal (`Capacity.RenewalFitsReserve`). `Renewals.RenewalIsRefused` runs from a
  first activation to a ledger on which a legitimate renewal is refused.
- Nothing is reserved for an acceptance that arrives after its record was skipped.
  Receipts with such acceptances are recorded as long as there is room for 57 bytes
  for each (`Capacity.ResultsFit`).
- A run captures its activation clock before the commit that uses it. A cutoff,
  held now or remembered, is undercut exactly when an acceptance starts the
  subscription afresh on a clock before it: its destination starts over, or did
  not have the subscription just before (`Creation.CutoffMovesBackExactly`, over
  runs `Creation.FloorHoldsExactly`). A subscription dropped and taken up again on
  a stale clock is such a case while the destination carries on
  (`Counterexamples.DroppedCutoffComesBackEarlier`).
- Cutoffs follow their destination's activation exactly as long as no destination
  that carries on takes up a subscription on a clock before its activation
  (`Timeliness.OrderIsKeptExactly`, `Timeliness.OrderHoldsExactly`). That alone is
  often harmless. A delivery can come to be owed for an event a second or more from
  before the activation exactly when a cutoff is early: a full second before the
  activation, or, for opened requests, whose recorded origin may lie later within
  the second of their creation, before the second the activation falls in
  (`Timeliness.EarlyEventsExactly`). Over runs this happens exactly when such a
  subscription is taken up on a clock that is early
  (`Timeliness.NothingEarlyHoldsExactly`, `Timeliness.OpenDeliveriesAreTimely`).
  `Counterexamples.StaleAdditionAdmitsEarlierEvents` is a run that ends so.
- A run takes a backflow request for an orphan when its own clone does not have the
  request's head. That need not mean that history was rewritten: a head returned
  after a full clone was made looks the same, and its request is then deleted and
  closed although nothing else returns it (`Backflow.NewerHeadIsOrphaned`). Returned
  heads stay accounted for exactly as long as no run orphans a request that something
  still rests on (`Backflow.AccountIsKeptExactly`), so if orphaned heads are rewritten
  ones (`Backflow.CreatedStaysAccounted`). A run's own orphans are, when its clone is
  shallow or has each unrewritten head of the edge that is open, or is opened before
  it lists (`Backflow.Informed`, in `Backflow.Forge.ApplyBackflow`).
- `Replace` keeps the answer of the origin scan exactly when the replaced block is
  not itself an origin block, or the text around it gives that answer alone, which
  never happens when the scan reads the body to its end
  (`Markers.ReplaceKeepsOrigin`). A comment can be both blocks
  (`Markers.OriginLostWithMarker`).
- A marker is read back as it was written exactly when its values are valid and have
  no white space at their ends (`Markers.WrittenIsSameExactly`); any other one is read
  back sanitized and trimmed.

## Model

| member | source | states |
|---|---|---|
| Agreement.SaveMessagePreserves | internal/notification/reducer.go:255-276 | a saved message keeps the invariant and every piece of evidence exactly when its title is free of control characters and the record was not retired without a message |
| Agreement.SavedMessageCommits | internal/notification/store/store.go:74-111 | and under exactly that condition the store commits it |
| Agreement.RenderedMessageCommits | internal/notification/render.go:31-45 | a message with a cleaned title is committed unless the record was retired without one |
| Agreement.ClaimPreserves | internal/notification/reducer.go:282-313 | a single claim keeps the invariant and every piece of evidence |
| Agreement.RenewClaimPreserves | internal/notification/reducer.go:317-332 | so does a renewal of a single claim |
| Agreement.ResultPreserves | internal/notification/reducer.go:349-394 | so does any recorded result, late acceptances included |
| Agreement.LateAcceptanceNeedsItsMessage | internal/notification/store/codec.go:161-281 | validity alone is preserved by an acceptance exactly when the record has its message |
| Counterexamples.LateAcceptanceWithoutMessage | internal/notification/store/codec.go:161-281 | a valid ledger whose late acceptance is invalid |
| Agreement.ClaimBatchPreserves | internal/notification/reducer.go:417-461 | a batch claim keeps the invariant and every piece of evidence |
| Agreement.RenewBatchPreserves | internal/notification/reducer.go:466-490 | so does a batch renewal |
| Agreement.ResultsPreserve | internal/notification/reducer.go:538-562 | so do a batch's receipts and the release of its lease |
| Admission.AcceptedLedgerIsGood | internal/notification/reducer.go:143-217 | accepting a policy gives a good ledger: open deliveries that lose their destination, generation or subscription are retired, no evidence is lost |
| Admission.AdmitPreserves | internal/notification/reducer.go:221-253 | admitting an event keeps the invariant; every new delivery goes to an active destination subscribed to it |
| Admission.AdmissionIsExact | internal/notification/reducer.go:219-253 | a delivery for exactly the destinations that are on and subscribed to events of the kind since before the event counts, in their current generation and untried; nothing already there changes, and the event is kept if anybody is owed it |
| Admission.CountsFrom | internal/notification/creation.go:42-57 | an event counts from when it occurred, a creation from the instant within its second that its own recorded origin vouches for |
| Verdicts.SameExactly | internal/notification/model.go:59-65 | two records of a repository are the same exactly when provider, organization, project, identity and host are, the host up to case and a final dot, the display name aside |
| Verdicts.ObjectNames | internal/notification/model.go:366-371 | an object name is 40 or 64 lower-case hexadecimal digits |
| Verdicts.AdmitsExactly | internal/notification/reducer.go:221-235 | an event is admitted exactly under the accepted commit and with the identity its own facts give it |
| Verdicts.SavesExactly | internal/notification/reducer.go:255-276 | a message is saved once, under the accepted commit and within its limits, and changes its own record alone |
| Verdicts.FitsExactly | internal/notification/reducer.go:599-621 | a ledger fits exactly within 8 MiB and 50000 deliveries, with 2 KiB set aside for each unfinished one where results are owed |
| Admission.AdmissionIsIdempotent | internal/notification/reducer.go:219-253 | admitting the same event again changes nothing |
| Acceptance.PolicyIsInstalled | internal/notification/reducer.go:155-205 | after an acceptance every enabled destination is active with exactly its configured subscriptions, and every other one is off and subscribed to nothing |
| Acceptance.UnchangedCarriesOn | internal/notification/reducer.go:162-213 | an active destination with the same transport and endpoint keeps its generation, lease, pacing and cutoffs, its new subscriptions start now, and its deliveries still wanted stay as they were |
| Acceptance.OthersStartOver | internal/notification/reducer.go:162-194 | every other enabled destination starts over: a generation of its own, no lease, no pacing, and nothing owed from before now |
| Acceptance.OthersAreSwitchedOff | internal/notification/reducer.go:195-201 | what no enabled configuration names is switched off and otherwise stays as it was |
| Acceptance.RetiresExactly | internal/notification/reducer.go:202-211 | exactly the open deliveries that nobody wants any more are retired, and no other is changed |
| Verdicts.AcceptsExactly | internal/notification/reducer.go:64-88 | a configuration is taken over exactly when it is the first or proved a descendant of the accepted one, the same one is kept, an ancestor is stale, and other contents under the accepted commit are a mismatch |
| Verdicts.AcceptRefusals | internal/notification/reducer.go:143-158 | a policy that is off altogether changes nothing; no clock, no valid revision, or operator evidence in a scheduled run is refused |
| Verdicts.OverridesExactly | internal/notification/reducer.go:101-115 | an override goes ahead exactly with a clock, an enabled policy, evidence for this very gap and fewer than 32 overrides on record |
| Invariant.InvIsValid | internal/notification/store/codec.go:161-281 | the invariant implies everything the codec validates |
| Operations.StoreCommitsLegitimateSteps | internal/notification/store/store.go:74-110 | from a good ledger, whatever any operation answers is good again and passes revision check, append-only guard and encoder, renewals that exceed the encoded bound apart |
| Operations.RenewalsCommitExactly | internal/notification/store/store.go:108-111 | on a ledger whose results are paid for a renewal is committed, except exactly a batch renewal for a destination nothing is owed to on a ledger without room for the longer instant |
| Operations.RunsRenewExactly | internal/notification/store/store.go:108-111 | so at the end of any run of rechecking steps, results and renewals |
| Operations.CreationCommits | internal/notification/store/store.go:74-82 | the first activation's ledger is good and its creation commits |
| Operations.CompositeTransitionsPass | internal/notification/store/store.go:130-170 | one commit of any number of steps passes the guard as a whole |
| Guard.CommittedEvidenceIsKept | internal/notification/store/store.go:130-170 | over arbitrary transitions: identity and events unchanged, deliveries, where they go and their attempts kept, messages frozen once set, delivered records frozen, skipped ones left only for delivered with the same attempts, the audit only appended to |
| Guard.HistoryExtends | internal/notification/store/store.go:130-170 | the last ledger of any history extends the first |
| Guard.CommittedIsValid | internal/notification/store/store.go:108-111 | every committed ledger is valid |
| Guard.CommittedRecordsAreCoherent | internal/notification/store/codec.go:161-281 | whatever the transitions did, every committed delivery stands under the digest of an event and destination that are there, and its status, attempts, lease, message and times belong together |
| Guard.CommittedFactsAreKeyed | internal/notification/store/codec.go:161-281 | so do committed events, requests and destinations stand under their own identities, with the times they need |
| Guard.CommittedHeadersAreSound | internal/notification/store/codec.go:161-281 | a committed ledger says whose it is and under which configuration, its audit records name two different commits and are at most 32, and its scans run forward |
| Guard.ConfigurationChangesAreAccounted | internal/notification/store/store.go:83-107 | every change of accepted configuration is vouched for by ancestry or by its own audit record |
| Guard.AuditIsExact | internal/notification/store/store.go:139-161 | the audit lists the changes without ancestry: all of them, each once, in order |
| Guard.UnrepairedLineage | internal/notification/reducer.go:64-88 | with no audit record in between, the later accepted configuration is the earlier one or descends from it |
| Receipts.ReceiptsCommute | internal/notification/reducer.go:538-562 | recording receipts one by one gives the same ledger, or the same refusal, in every order |
| Receipts.RecordResultsIsIdempotent | internal/notification/reducer.go:538-562 | recording the same receipts again, at any later time, changes nothing |
| Receipts.AcceptanceWins | internal/notification/reducer.go:349-394 | under every interleaving of receipts a record ends delivered exactly when it was, or one of them was an acceptance |
| Receipts.TransientFailuresNeverGiveUp | internal/notification/reducer.go:576-597 | transient outcomes, however many, never make a record terminal |
| Receipts.ClaimedStaysRecordable | internal/notification/reducer.go:334-345 | an attempt once claimed can be reported in every later committed ledger, and its acceptance delivers the record |
| Receipts.DeliveredIsNeverSentAgain | internal/notification/reducer.go:503-526 | once a receipt is durable the record is frozen and no send check passes for it in any later ledger |
| Claiming.SendVerdicts | internal/notification/reducer.go:503-526 | why a send is refused: another revision, the destination not owned, or else this record alone lost |
| Claiming.LostAloneExactly | internal/notification/reducer.go:515-524 | while one record of a batch may be sent every other one is sent too or alone lost; without its revision, its destination or its lease no record of it is reported as lost alone |
| Capacity.ReservationFunds | internal/notification/reducer.go:601-621 | the reserving check pays for the longest result of every open record, and for the longest lease of every destination one is owed to |
| Capacity.ResultsFit | internal/notification/reducer.go:538-562 | from a funded ledger a batch's receipts are never refused for room and leave it funded; late acceptances of skipped records take up to 57 bytes each |
| Capacity.ResultFits | internal/notification/reducer.go:336-345 | the same for one result |
| Capacity.RenewBatchKeepsFunding | internal/notification/reducer.go:463-490 | a batch renewal leaves everything paid for as long as a record is owed to its destination |
| Capacity.RenewClaimKeepsFunding | internal/notification/reducer.go:315-332 | a single renewal always does |
| Capacity.RenewalFitsReserve | internal/notification/reducer.go:463-490 | directly after any reserving check a batch renewal fits as soon as one record at all is open |
| Capacity.RenewalExceedsExactly | internal/notification/reducer.go:463-490 | a batch renewal exceeds the bound exactly when nothing is owed to its destination and the ledger has no room for the longer instant |
| Capacity.ReservedResultsAreRecorded | internal/notification/reducer.go:599-621 | reservation soundness over whole runs of rechecking steps, results and renewals in any order |
| Renewals.Fill | internal/reconcile/notification_observe.go:417-449 | accepted observations can fill a ledger to the last byte |
| Renewals.RenewalIsRefused | internal/notification/store/store.go:108-111 | from a first activation legitimate, accepted operations lead to a ledger on which a legitimate batch renewal is refused |
| Claiming.ClaimKeysIsExact | internal/notification/reducer.go:430-453 | a list of claims succeeds exactly when every key is claimable, and then claims exactly the due ones, once each |
| Claiming.ClaimBatchIsExact | internal/notification/reducer.go:417-461 | the claimed keys are the due keys in input order, distinct, each with a new attempt |
| Claiming.ReplayCountsOnce | internal/notification/reducer.go:417-461 | repeating a landed batch claim in any later ledger never counts a second attempt |
| Claiming.ClaimOpensWindow | internal/notification/reducer.go:503-526 | after a claim its records may be sent for exactly one claim duration, and meanwhile neither a batch nor a single attempt can claim the destination |
| Claiming.ReleasePacesDestination | internal/notification/reducer.go:534-562 | recorded receipts release the destination, which stays closed to every claim for one second and no longer |
| Claiming.RenewalMovesWindow | internal/notification/reducer.go:466-490 | a renewal moves the end of the window for the records still held, and revives nothing |
| Claiming.FailureBacksOff | internal/notification/reducer.go:564-571 | a failed record is not claimable for at least a minute and is claimable again within a day |
| Claiming.FreeIsClaimed | internal/notification/reducer.go:417-461 | a batch of one record is claimed exactly when the record is open, has its message and nothing it needs has to wait; record and destination are then leased for two minutes |
| Claiming.FreeIsClaimedAlone | internal/notification/reducer.go:282-313 | so is a single claim |
| Claiming.ClaimRefusals | internal/notification/reducer.go:417-440 | an outdated revision, an improper identity or a key of another destination is no claim |
| Claiming.RenewsExactly | internal/notification/reducer.go:466-490 | a batch renews exactly while it owns its destination, for two minutes from now, and just the records its attempts still hold |
| Claiming.RenewsAloneExactly | internal/notification/reducer.go:317-332 | a single attempt renews exactly while it holds both its record and the destination |
| Outcomes.RefusedExactly | internal/notification/reducer.go:349-358 | a result is refused exactly for a record or attempt the ledger does not know, an outcome no transport reports, or without a clock |
| Outcomes.AcceptanceIsFinal | internal/notification/reducer.go:359-394 | an acceptance delivers its record for good unless it was delivered already |
| Outcomes.LateFailuresChangeNothing | internal/notification/reducer.go:359-362 | a failure that comes after the record is finished, or from an attempt that no longer holds it, changes nothing |
| Outcomes.GivesUpExactly | internal/notification/reducer.go:363-394 | a failure of the lease holder ends the record exactly when the payload is too large, or after 24 attempts and not for want of network, service, rate or time; otherwise the record is tried again, its code and status kept |
| Outcomes.ResultFreesDestination | internal/notification/reducer.go:385-394 | what settles a record frees its destination exactly if the attempt held it |
| Outcomes.ReceiptsRefusedExactly | internal/notification/reducer.go:538-552 | a set of receipts is refused exactly if one of them is, or without a batch or a clock |
| Outcomes.ReceiptsActAlone | internal/notification/reducer.go:538-556 | each receipt does to its own record what it would do alone, and records without one stay |
| Outcomes.ReceiptsFreeDestination | internal/notification/reducer.go:556-562 | the batch's own lease is dropped, and its destination paced for a second |
| Outcomes.BackoffDoubles | internal/notification/reducer.go:564-590 | passing outages are retried after a minute, two, four and so on up to an hour |
| Outcomes.OthersWaitAnHour | internal/notification/reducer.go:564-574 | every other failure is retried after an hour |
| Outcomes.RetryAfterIsHonoured | internal/notification/reducer.go:564-574 | never before the receiver said, up to a day |
| Outcomes.FailsAtMost24Times | internal/notification/reducer.go:592-597 | over any run of legitimate steps a record fails no more than 24 times for another reason than an outage |
| Leases.LostForever | internal/notification/reducer.go:466-490 | a batch whose lease expired, was released or was replaced never holds it again, in any interleaving |
| Leases.OneBatchPasses | internal/notification/reducer.go:503-526 | in any state at most one batch passes the send check for a destination, and one attempt for a record |
| Leases.LostBatchNeverPasses | internal/notification/reducer.go:503-526 | from then on no send check passes for the lost batch |
| Leases.SendingWindowsAreDisjoint | internal/reconcile/notification_delivery.go:127-137 | once another batch has passed for a destination the earlier one never does again |
| Leases.SendingWindowsFollowEachOther | internal/reconcile/notification_delivery.go:127-137 | nor do their windows overlap in time: another batch passes at a later instant, unless a result released the first one's lease, or an acceptance that started its destination over |
| Creation.EarliestAdmissibleTime | internal/notification/creation.go:67-86 | the loops report one second before the earliest cutoff of the kind, or nothing exactly when no active subscription accepts it |
| Creation.NothingAdmissibleIsEarlier | internal/notification/creation.go:59-86 | no event that would be admitted occurs before the reported instant |
| Creation.NothingAdmissibleLater | internal/notification/creation.go:59-86 | nor does any that a later ledger of the run would admit, subscriptions taken up since included, as long as no acceptance's clock lies before the reported instant |
| Creation.AdmissionTimeIsClose | internal/notification/creation.go:42-57 | creation evidence moves eligibility forward by less than a second, never back |
| Creation.CutoffMovesBackExactly | internal/notification/reducer.go:162-194 | an acceptance undercuts a cutoff, held or remembered, exactly when it starts the subscription afresh on a clock before it |
| Creation.FloorHoldsExactly | internal/notification/reducer.go:162-194 | over any run, in whatever order clocks were read, a cutoff once held is never undercut exactly when no acceptance does so |
| Creation.CutoffsNeverMoveEarlier | internal/notification/reducer.go:162-194 | with no acceptance on a clock before it a cutoff never moves earlier, even when its subscription was dropped in between |
| Counterexamples.DroppedCutoffComesBackEarlier | internal/notification/reducer.go:162-194 | three acceptances under which a destination carries on and its cutoff moves back 500 seconds |
| Timeliness.OrderIsKeptExactly | internal/notification/reducer.go:162-194 | an acceptance keeps every cutoff at or after its destination's activation exactly when no destination that carries on takes up a subscription on a clock before its activation |
| Timeliness.OrderHoldsExactly | internal/notification/reducer.go:162-194 | over any run cutoffs follow activations exactly as long as no acceptance does |
| Timeliness.EarlyEventsExactly | internal/notification/creation.go:42-57 | for one active subscription, some valid event of a request not seen yet, with facts a provider may report of it, is admitted although it occurred a second or more before the activation, exactly when the cutoff is early |
| Timeliness.NothingEarlyHoldsExactly | internal/notification/reducer.go:162-253 | over any run from a ledger without early cutoffs, no ledger would admit such an event exactly as long as no destination that carries on takes up a subscription on a clock that is early for it |
| Timeliness.OpenDeliveriesAreTimely | internal/notification/reducer.go:221-253 | and under that condition, in every ledger the run reaches, an open delivery's event occurred later than one second before its destination's activation |
| Counterexamples.StaleAdditionAdmitsEarlierEvents | internal/reconcile/notification_observe.go:149-175 | after one such acceptance an open, routed delivery for an event 1400 seconds before the activation |
| Timeliness.CreationIsTimely | internal/reconcile/notification_observe.go:149-182 | the first ledger has its cutoffs in order and owes nothing |
| MutableLedger.LedgerV1.constructor | internal/notification/model.go:313-316 | the empty ledger of a graph |
| MutableLedger.LedgerV1.Clone | internal/notification/model.go:318-352 | a fresh object with the same contents |
| Sharing.CloneIsDeep | internal/notification/model.go:318-352 | a clone reads as its original, points to nothing that existed before, and writes to nothing that did |
| Sharing.SaveMessageRefines | internal/notification/reducer.go:255-276 | with the input's own attempts handed on, a saved message reads as the reducer's and nothing reachable before is written |
| Sharing.ClaimRefines | internal/notification/reducer.go:278-313 | so does a claim, which appends in place where the clone's slice has room |
| Sharing.RenewClaimRefines | internal/notification/reducer.go:315-332 | so does a renewal of the input's own record and destination |
| Sharing.ClaimBatchRefines | internal/notification/reducer.go:417-461 | so does a batch claim, append by append |
| Sharing.RenewBatchRefines | internal/notification/reducer.go:466-490 | so does a batch renewal |
| Sharing.SnapshotsStay | internal/notification/model.go:318-319 | however often ledgers that share memory are stepped on, from whichever snapshot, an earlier snapshot reads as it did |
| Sharing.UnclonedAppendsCollide | internal/notification/reducer.go:300-305 | without the clone two claims of one snapshot would overwrite each other's attempt |
| MutableLedger.CheckCapacity | internal/notification/reducer.go:599-621 | the loop over the deliveries computes encoded size plus reserve |
| MutableLedger.AcceptPolicy | internal/notification/reducer.go:133-217 | the nested loops compute the accepted ledger on a clone, or nothing changes |
| MutableLedger.AcceptAny | internal/notification/reducer.go:143-217 | the shared body: override evidence only where it is allowed, same revision is a clone |
| MutableLedger.OverrideRevision | internal/notification/reducer.go:90-127 | an acceptance with exactly one audit record appended, within the audit's bound |
| MutableLedger.AdmitEvent | internal/notification/reducer.go:219-253 | the loop adds one fresh record for each eligible destination |
| MutableLedger.SaveMessage | internal/notification/reducer.go:255-276 | the message is stored on a clone, once |
| MutableLedger.Claim | internal/notification/reducer.go:278-313 | record and destination leased on a clone, attempt appended |
| MutableLedger.RenewClaim | internal/notification/reducer.go:315-332 | both leases extended, never revived |
| MutableLedger.ApplyResult | internal/notification/reducer.go:347-394 | one result reduced in place to what Outcomes says of it |
| MutableLedger.RecordResult | internal/notification/reducer.go:334-345 | one result on a clone, charged without reserve |
| MutableLedger.ClaimBatch | internal/notification/reducer.go:409-461 | the loop over the keys claims what is due, in order |
| MutableLedger.RenewBatch | internal/notification/reducer.go:463-490 | the loop over the attempts extends the leases still held |
| MutableLedger.RecordResults | internal/notification/reducer.go:534-562 | the loop over the receipts in some order and the release; for a good ledger, all receipts at once |
| Sorting.Sort | internal/notification/schedule.go:22-32 | a permutation in order |
| Schedule.GroupDue | internal/notification/schedule.go:11-18 | every due key in its destination's group, nothing else |
| Schedule.DueDeliveries | internal/notification/schedule.go:8-43 | distinct due keys, at most 100 and 10 a destination, in rounds by name; each destination's are the first of its order; fair within one unless exhausted; nothing omitted unless a cap is hit |
| Listing.ClaimsEveryDueKey | internal/notification/reducer.go:424-453 | from a good ledger due keys of one destination with messages are all claimed, in order |
| Listing.ListedIsReady | internal/notification/schedule.go:8-43 | every listed record is open, its destination on and free, its wait and its lease over; at most 100 are listed and at most 10 for a destination |
| Listing.ReadyIsListed | internal/notification/schedule.go:8-43 | every such record is listed unless a cap is hit |
| Listing.WhatCouldBeClaimedIsListed | internal/notification/schedule.go:11-18 | whatever a batch could claim once its message is saved is listed unless a cap is hit |
| Listing.FailedIsListedAgain | internal/notification/schedule.go:11-18 | in particular a failed record once its wait is over |
| Listing.OldestFirst | internal/notification/schedule.go:19-30 | a destination's oldest events come first, in the list and before whatever is left for another run |
| Dispatch.Prepare | internal/reconcile/notification_delivery.go:169-205 | the first write's transition saves what can be saved and claims what has a message |
| Dispatch.PrepareKeeps | internal/reconcile/notification_delivery.go:169-205 | it keeps the invariant and all evidence as a whole |
| Dispatch.FirstWriteKeeps | internal/reconcile/notification_delivery.go:46-65 | so for the keys a schedule lists, whatever other runs did since, short of accepting another configuration |
| Dispatch.PreparedKeysAreClaimed | internal/reconcile/notification_delivery.go:46-65 | of the keys listed for a destination it claims exactly those with a message, in the listed order |
| Dispatch.SendAll | internal/reconcile/notification_delivery.go:219-289 | the send loop: a record is attempted exactly if the run gets past its turn, and then posted, on the ledger that turn looked at, or found to be another attempt's; the look is a renewal exactly with less than a minute of the lease left; the run ends exactly with the error of the first turn that has one; posts are in claim order, every claimed record has a receipt, an unsent one as canceled; undisturbed, all are posted |
| Dispatch.AloneIsUndisturbed | internal/reconcile/notification_delivery.go:219-289 | a run alone since its claim that takes less than a minute for each record finds nothing in the way of any of them, however long the batch: its renewals keep the lease |
| Dispatch.CheckedHasPayload | internal/reconcile/notification_delivery.go:360-373 | what passes the send check always has a payload |
| Dispatch.PayloadExactly | internal/reconcile/notification_delivery.go:360-373 | what is posted is the event and message of a record the attempt holds under the accepted commit, and why there is none otherwise |
| Dispatch.ReceiptsAlwaysLand | internal/reconcile/notification_delivery.go:291-301 | whatever was committed since the claim, the receipts are never refused as invalid and every accepted post ends delivered |
| Runtime.Activate | internal/reconcile/notification_observe.go:149-175 | the activation transition, with evidence for the very snapshot it reduces |
| Runtime.ActivationCommits | internal/reconcile/notification_observe.go:149-175 | whatever it answers the store accepts, and it never writes an audit record |
| Runtime.ResetRevision | internal/reconcile/notification_observe.go:203-250 | the operator's transition, its refusals up front, and as report exactly the record it appended |
| Runtime.ResetCommitsOnce | internal/reconcile/notification_observe.go:184-263 | a reset keeps all evidence, appends exactly one record naming both commits, is accepted by the store, and repeated writes nothing |
| Runtime.RecordObservation | internal/reconcile/notification_observe.go:417-449 | the observation transition's loop, request by request |
| Runtime.ObservationPreserves | internal/reconcile/notification_observe.go:417-449 | a whole page of observations keeps the invariant and all evidence |
| Notes.NotificationNotes.Read | internal/git/notes.go:159-195 | the snapshot is a tip the ref had during the read; a known tip is not fetched and is complete locally |
| Notes.NotificationNotes.Refusal | internal/git/notes.go:242-256 | the pre-write check, skipped for the tip pushed last |
| Notes.NotificationNotes.Push | internal/git/notes.go:292-304 | the leased push, and telling a lost race from a denial |
| Notes.NotificationNotes.Write | internal/git/notes.go:230-305 | with the cache the outcome is that of a writer that always fetches first, unless a look failed and the ref is unreachable, or a lost race and a wrong anchor are both there to report; the ref moves only by one child of the expected tip |
| Notes.LoneWriterNeverConflicts | internal/git/notes.go:292-304 | a conflict is always a lost race |
| Notes.RaceIsLost | internal/git/notes.go:245-249 | once the ref moved past the expected tip a write is a conflict |
| Store.LedgerStore.Read | internal/notification/store/store.go:34-47 | a decoded, valid ledger of this graph, or absence |
| Store.LedgerStore.Refusal | internal/notification/store/store.go:74-111 | the checks between transition and write, in order |
| Store.LedgerStore.Round | internal/notification/store/store.go:56-124 | the answer follows from a tip the read saw, or a look failed or the run was canceled; whatever the outcome, the ref holds what the writers around the round appended, in their order, and at most one note of its own: the transition's answer, passed by the checks, to the tip the push arrived at, which for a failed or lost round means an unheard push |
| Store.LedgerStore.Commit | internal/notification/store/store.go:49-126 | at most five rounds, each leaving the ref from one tip to the next as a round does; the result is that of the first round not lost, a round is lost only to another writer or an unheard push; a lawful ref stays lawful if the other writers' notes are admitted where they land |
| Store.RoundStaysLawful | internal/notification/store/store.go:56-124 | however far a round got, heard or not, a ref of admitted notes is one again if the notes its own surroundings append are admitted where they land |
| Store.CommitsStayLawful | internal/notification/store/store.go:49-126 | so is a ref over all the rounds of a commit, and its ledgers are a history |
| Store.AppliedStaysLawful | internal/notification/store/store.go:64-124 | one more commit of any store extends the history of its ref |
| Store.LawfulIsHistory | internal/notification/store/store.go:64-124 | a ref of such commits is a history, so everything proved of histories holds of it |
| Store.LawfulIsReadable | internal/notification/store/store.go:34-47 | every tip of such a ref is read back as it was written |
| Store.AloneCommits | internal/notification/store/store.go:49-126 | left alone, a round commits whatever the checks let through, or finds it there already |
| IntervalScan.ListLifecyclePage | internal/forge/azuredevops/notifications.go:56-166 | a page gets on exactly if the query is acceptable and the listing is full and its interval can be split, or fits, is listed the same twice and can be read; it then splits the first pending interval, or returns exactly the graph's managed requests in it, each once and sorted; otherwise it leaves what is pending, and a query or cursor it cannot use starts the interval over |
| IntervalScan.ReadOut | internal/forge/azuredevops/notifications.go:121-158 | the loop over a verified listing: spoiled exactly by a repeated or improper number or a failed lookup, else the graph's requests of the interval in listed order |
| IntervalScan.PagesLoseWeight | internal/forge/azuredevops/notifications.go:107-119 | every page of progress strictly lowers the potential |
| IntervalScan.ScansAreBounded | internal/forge/azuredevops/notifications.go:60-166 | between two starts a scan makes at most as many pages of progress as its interval weighs |
| IntervalScan.NoGap | internal/forge/azuredevops/notifications.go:56-59 | at every point each instant of the interval is pending or verified, restarts included |
| IntervalScan.CompleteScanMissesNothing | internal/forge/azuredevops/notifications.go:159-164 | a complete scan of a fixed remote returned every managed request of the graph |
| IntervalScan.PageIsScanStep | internal/forge/azuredevops/notifications.go:56-166 | each page is a step of such a scan, from what its query had pending to what it leaves |
| IntervalScan.PagesAreScan | internal/forge/azuredevops/notifications.go:56-166 | pages called for one after another, each with the cursor of the one before, are a scan |
| IntervalScan.CompletePagesMissNothing | internal/forge/azuredevops/notifications.go:56-166 | so pages called for until one is complete have returned every managed request of the graph in the interval |
| Cycle.Search.Visit | pkg/api/v1/validate.go:486-505 | the search of one node: all it reaches is finished, or a simple closed path is returned; it terminates |
| Cycle.FindCycle | pkg/api/v1/validate.go:465-519 | nothing exactly when the graph is acyclic, else a simple closed walk along declared promotions |
| Cycle.NoClosedWalkIsFinished | pkg/api/v1/validate.go:486-505 | a graph whose nodes are all finished has no closed walk |
| Backflow.AccountIsKeptExactly | internal/reconcile/reconcile.go:1254-1289 | however any runs and history rewrites interleave, each created request's head stays covered by an open request, its branch there, for it or a descendant, unless history was rewritten under it, exactly as long as no run orphans a request that something still rests on when its turn comes |
| Backflow.CreatedStaysAccounted | internal/reconcile/reconcile.go:1269-1289 | in particular as long as the heads that runs orphan are ones that were rewritten away |
| Backflow.NewerHeadIsOrphaned | internal/reconcile/reconcile.go:1315-1356 | six steps of two runs, none a rewrite, after which a returned head is covered by nothing |
| Backflow.Forge.SupersedeBackflow | internal/reconcile/reconcile.go:1290-1392 | of the requests it listed it cleans up, once each, ones that are strictly older on its edge or whose head its full clone does not have, and all of them unless it fails, which it does exactly when the listing fails, the forge refuses a clean-up or an ancestry cannot be told; its own steps are exactly their deletes and closes in that order, the other runs' steps those around it |
| Backflow.Forge.ApplyBackflow | internal/reconcile/reconcile.go:1122-1184 | the run's own steps are its push, its request and these clean-ups, or the first of them exactly if the request does not open or the clean-ups fail, so nothing is deleted or closed before the new request is open; the orphans of a run that was informed beforehand are rewritten heads, and then created heads stay accounted for throughout if other runs' orphaning is harmless |
| Returned.TwinIsNoAncestor | internal/reconcile/reconcile.go:679-691 | a commit naming another is never its ancestor |
| Returned.RangeIsExact | internal/git/git.go:745-778 | the scanned range is the target's history minus what all candidates contain |
| Returned.TwinIsScanned | internal/reconcile/reconcile.go:670-700 | wherever the target advanced to and whichever candidates are resolved together, a candidate's twin is scanned |
| Returned.BackflowReturned | internal/reconcile/reconcile.go:700-740 | the two sets are read from the whole range, and empty without candidates |
| Returned.BackflowToReturn | internal/engine/edge.go:169-208 | every downstream commit is returned or excluded, once, in order, for the first reason that applies |
| Returned.Evaluate | internal/engine/edge.go:169-208 | exactly the candidates that are not marked to be skipped, not named and not matched in the log are proposed, in order, the others excluded for the first of these reasons; so a commit once returned is never proposed again |
| Markers.SanitizedIsValid | internal/forge/marker/marker.go:130-140 | whatever a value holds, sanitizing masks characters only, and leaves no control character and no comment delimiter, across its own replacements included |
| Markers.ValidIsUnchanged | internal/forge/marker/marker.go:130-140 | it leaves exactly the valid values alone |
| Markers.SerializedIsComment | internal/forge/marker/marker.go:65-92 | every marker is written as one closed comment with the key, which is no origin block and reads back sanitized and trimmed |
| Markers.WrittenIsSameExactly | internal/forge/marker/marker.go:130-140 | what is read back is the marker itself exactly when its values are valid and have no white space at their ends |
| Markers.InnerReadsBack | internal/forge/marker/marker.go:65-92 | reading a valid block gives the marker back, the white space around its values apart |
| Markers.BlockBounds | internal/forge/marker/marker.go:166-195 | the loop finds the first keyed comment |
| Markers.HasOiaxKey | internal/forge/marker/marker.go:197-206 | some line is exactly the key |
| Markers.ReadInner | internal/forge/marker/marker.go:208-239 | the loop over a block's lines |
| Markers.ParseFindsEveryBlock | internal/forge/marker/marker.go:142-153 | a marker is parsed exactly when a block is found |
| Markers.ReplaceThenParse | internal/forge/marker/marker.go:155-164 | whatever the marker holds, it is read back as written, and every character outside the block stays |
| Markers.CheckBodySafety | internal/tmpl/tmpl.go:587-612 | accepts exactly the bodies whose comments are all closed and not keyed |
| Markers.AppendedBlockIsFound | internal/tmpl/tmpl.go:587-612 | any marker's appended block is found behind the whole body exactly when the body passes the check |
| Markers.AppendThenParse | internal/forge/github/github.go:348-352 | a checked body with any marker's block appended, and more behind it, gives back what was written |
| Markers.PrependThenParse | internal/forge/azuredevops/provider.go:349-354 | any marker's block placed first is found whatever follows |
| Markers.ScanOrigin | internal/forge/marker/notification_origin.go:15-38 | the loop over the reserved comments |
| Markers.ReplaceKeepsOrigin | internal/forge/marker/notification_origin.go:15-38 | for every body, rewriting the marker keeps the origin scan's answer exactly when the block was not an origin block or the text around it gives the same answer alone |
| Markers.OriginLostWithMarker | internal/forge/marker/notification_origin.go:15-38 | a body whose one comment is both, and loses its origin |
| Markers.AppendThenScan | internal/forge/marker/notification_origin.go:40-63 | an appended origin is the one the scan finds, and the body stays in front of it |
| Plans.BuildPlan | internal/engine/plan.go:22-84 | the actions edge by edge in order: every promotion action and report as often as edges call for it, and for each source with something to return one backflow action, standing where its first edge that can return stands, with that edge's branch and the graph's strategy, counting what all edges that can return have to return |
| Plans.CherryPickCountsEveryEdge | internal/engine/plan.go:46-83 | for cherry-picked returns the union runs over every edge into the source |
| Plans.PlanIsAsked | internal/engine/plan.go:121-268 | so in terms of the edges alone: which edge calls for which action, and which can return |
| Plans.MergesWithholdNothing | internal/engine/plan.go:215-268 | a merge back counts only commits of edges that withhold none and whose target is not known to forbid merge commits; every other edge into a source with commits of its own is reported |
| Plans.Apply | internal/reconcile/reconcile.go:880-980 | what was carried out is the plan up to the first action that fails, promotion arms on the live head; divergence is a report or a return whose replay conflicts, and the edges whose conflict record stays |
| Plans.MatchRequest | internal/reconcile/reconcile.go:1531-1539 | the first listed request for the edge's branches, or none exactly when there is none |
| Plans.MatchIsObserved | internal/reconcile/reconcile.go:1531-1534 | on a forge that keeps one request an edge, the one there is |
| Plans.EdgeSettles | internal/engine/plan.go:121-165 | applying one edge's actions leaves one request at the live head, or none when in sync |
| Plans.ReplanIsQuiet | internal/engine/plan.go:121-165 | after applying a plan, planning again on unchanged branches asks for no promotion action and each diverged edge has its one request at the live head |

## Left out

- Capacity.ReservedResultsAreRecorded: renewals of its runs are of batches still owed something; Capacity.RenewalExceedsExactly decides the others.
- Capacity.ResultsFit: 57 bytes for a late acceptance is an upper bound, not the exact growth.
- MutableLedger.LedgerV1.Clone: its maps and lists are values; shared slices and pointers are the subject of Sharing.
- Sharing.SnapshotsStay: covers the transitions that share pointers with their input; commit lists, origins and the audit list, which no transition but a clone rewrites, are values there too.
- Creation.EarliestAdmissibleTime: for validated destinations, whose cutoffs are never the zero instant that the source takes for "none yet".
- Plans.BuildPlan: for edges that list each commit to return once and only downstream commits, as the edge evaluation does.
- Notes.NotificationNotes.Write: compares no outcomes for an expected tip that the ref never had and gets only while it is being read, and takes two writers' commits to be different; a note of several entries or beyond the size bound is left out.
- Backflow.AccountIsKeptExactly: requests merged or closed by people are no step of its runs, and a run's clone has the same heads throughout one return.
- Plans.Apply: a forge call that takes effect and still reports an error is left out, and so are the conflict records themselves.
- Returned.BackflowReturned: patch identities are opaque; only provenance is proved durable.
- Dispatch.SendAll: errors reported for each record after the receipt write, and workers for several destinations at once, are left out; destinations meet only in the ledger.
- Dispatch.AloneIsUndisturbed: that its renewals go through is a premise; Operations.RunsRenewExactly says when the store refuses one.
- Runtime.RecordObservation: fetching, normalising and enriching provider facts is left out; events arrive as parameters.
- JSON bytes, duplicate-key detection and canonical key order: the encoded size is exact for a ledger's values, the bytes are not modelled; an empty and an absent commit list have the same size here.
- SHA-256, time zones, instants before the zero instant, text that is not Unicode scalar values, and letter case of host names beyond ASCII.
- The caller's revision hint, the commit slot and the second retry loop around the store: the store never trusts the hint.
- Git subprocesses, HTTP, credentials, cherry-picks, merges and conflict artifacts: contracts over commits and refs stand in for them.
- The creation-ordered page walk of the other provider, template rendering, message bodies, plan rendering and command-line wiring.
- Reference name and template path checks, defaulting, labels and version tokens: single-branch facts.
- Sorting is an insertion sort where the source calls its standard library.
