# Verification of the moderation platform

Interview Insights lets candidates publish reviews of hiring processes. Everything a candidate
writes waits in a moderation queue; human moderators and an AI triage service decide it;
candidates may edit and delete at any time; emails, SLA alerts and a search index follow from
what was committed. This project models that machinery in Dafny and proves what it guarantees.

## How the pieces fit

* `Queue` holds the tables and the effect of each transaction or single statement (`Act`).
  `QueueStore` has the transaction bodies, statement by statement, on tables updated in place;
  each is proved to have the effect `Act` gives it.
* `Protocol` breaks every service call into its atomic steps. A call in flight is a program
  counter plus what it has read; a run is any list of steps of any number of calls. `Lifecycle`,
  `History` and `ProtocolInv` prove the invariants, and `Theorems` says what they mean.
  `Announcements` adds what every run has published, and `Undisturbed` the exact outcome of each
  service call that runs from any state with nobody in between.
* An overall review is found and written by its process, everything else by its own id. An edit or
  delete that has passed its checks may therefore land on a later review of the same process.
  `StaleWrites` and `Escalation` say exactly which guarantees such a call takes away and until when,
  `Solo` builds the continuations they need, and `Witnesses` builds, step by step, the runs in which
  the guarantees fail.
* `Verdicts` is the AI triage service's decision and its events; the verdict stream may be lost,
  repeated and reordered, because a consumer call may start on any event ever published.
  `TriageSweep` is that service's hourly retry of rows left without a verdict.
* `DedupKeys`, `Notification` and `ReconciliationSweep` are the notification service: the key
  computed from the event type string, handlers that check, send and record, and the sweep.
* `Sla`, `SearchIndex` and `Listing` build on the queue: alert sweeps, the moderators' search
  index, the queue view. `Grouping` is the Map-filling loop two services share.
* `Throttle`, `ThrottleRace`, `CompanyReviews`, `Bulk` with its runs in `Submissions`, `Staff`,
  `CandidateAuth` and `Analytics` stand on their own.

## Findings

* An overall review can be rewritten by a call that had read another review. `update` and `remove`
  read the review of a process, check its owner and status, and then write whichever review the
  process has at commit time, while the queue is told about the one that was read. After a delete
  and a new submission in between, an approved review can wait with nothing to review
  (`Witnesses.OverwrittenReview`), show a text no entry was opened for
  (`Witnesses.UnreviewedTextApproved`), and a deleted review can get an entry that forgets its three
  decisions (`Witnesses.DecisionsForgotten`). The status rule holds for an entity from now on exactly
  when it holds now and no checked edit of an earlier review of its process is in flight
  (`StaleWrites.RuleHoldsForeverIff`); only calls that had read it ever rewrite it or take it away
  exactly when no such edit, and no such delete that an audit row does not refuse, is in flight
  (`StaleWrites.OwnWritesOnlyForeverIff`). After the delete of a review, decisions about it are
  forgotten exactly when three or more were made and an edit that had read it is in flight
  (`Escalation.DecisionsAreForgottenIff`); an escalation is never invented
  (`Escalation.FlagAgreesIff`). Round ratings, recruiter ratings and companies are never
  affected (`Theorems.WrittenByIdIsUntouched`).
* Deleting a rating is documented as possible at any status. The audit table's foreign key
  refuses it once one of its entries was approved automatically (`Lifecycle.DeleteSucceedsIff`), and
  from then on refuses every delete that had read the entity (`StaleWrites.AutoApprovedIsNeverDeleted`);
  `Witnesses.DeleteIsRefused` is a run in which it happens. A checked delete of an earlier review of
  the same process is not held up by it, and is the only service call that can still take an
  auto-approved review away (`StaleWrites.AutoApprovedStaysIff`).
* Permanent rejection of a round rating, recruiter rating or overall review is final exactly when no
  edit that passed its check earlier would still write it (`StaleWrites.PermanentRejectionIsFinalIff`,
  reached in `Witnesses.RejectedWithEditInFlight`). For a company it is final exactly when the
  company has no owner, because a company's `update` never looks for it
  (`StaleWrites.CompanyRejectionIsFinalIff`).
* The edit throttle's comment says a race at a window boundary under-counts by at most one. A commit
  that starts a window forgets exactly what a row still current counted, so it costs at most one edit
  exactly when the row is absent, stale or counts one (`ThrottleRace.RestartForgets`); a single
  overwrite can forget five (`ThrottleRace.OneOverwriteForgetsFive`), and any number of callers can
  pass while the row counts one (`ThrottleRace.ShortfallIsUnbounded`). The row counts every edit of
  its window exactly when nobody overwrote the window (`ThrottleRace.RowCountsAllIffNotOverwritten`).
  With calls one at a time, any hour sees at most nine edits, and nine is reached:
  `Throttle.EditsPerHour`, `Throttle.BoundIsMet`.
* The platform averages are described as identical to averages over the raw ratings. They are
  before the views round to two decimals; after it they are exactly when the sample-weighted rounding
  errors sum to zero (`Analytics.RoundingInvisibleIff`), as they do when no company average has more
  than two decimals (`Analytics.TwoDecimalsSuffice`), which with one company is also necessary
  (`Analytics.OneCompanyIff`). Otherwise they differ (`Analytics.RoundingShows`), by at most 0.005
  (`Analytics.RoundedAverageIsClose`).
* A send that throws ends the notification sweep it belongs to. As long as that mail keeps throwing,
  every mail behind it in the sweep's order waits: `ReconciliationSweep.OneBadMailStarvesTheRest`.
* A late mail about a decision reports the entity's current status, which is the outcome of its newest
  entry: `ReconciliationSweep.MailReportsNewestOutcome`, `Witnesses.LateMailReportsTheApproval`.
* The re-ordering at the end of the paged review list is described as necessary. The ranking and the
  ratings come from separate queries, and it changes the order exactly when the ratings the second
  query sees no longer rank the page's processes as the first query did
  (`CompanyReviews.ReorderingChangesNothingIff`); over one snapshot with distinct creation times it
  never does (`CompanyReviews.ReorderingChangesNothing`).

## Assumptions

Each transaction and each single statement is atomic. Generated ids are fresh: an id named in a
request is never generated later. Time is counted in whole milliseconds and does not run
backwards. Modules whose description says so take whole calls as atomic.

## Model

| member | source | states |
|---|---|---|
| `QueueStore.Tables.Enqueue` | api/src/moderation/moderation.service.ts:260-303 | a new entity's entry is unreviewed, unclaimed, not escalated, and due the configured number of hours after it is opened |
| `QueueStore.Tables.Reenqueue` | api/src/moderation/moderation.service.ts:289-296 | the unreviewed entries of the entity are replaced by one new entry, escalated when three or more entries remain |
| `QueueStore.Tables.RemoveQueueEntries` | api/src/moderation/moderation.service.ts:309-311 | removes every entry of the entity, or fails and removes none when an audit row refers to one of them |
| `QueueStore.Tables.Create` | api/src/overall-reviews/overall-reviews.service.ts:24-38 | entity and queue entry appear together, pending; a second review of a process is refused |
| `QueueStore.Tables.Update` | api/src/round-ratings/round-ratings.service.ts:78-95 | content replaced, status reset, verdict cleared and a fresh entry opened in one transaction, the row found by its own id |
| `QueueStore.Tables.UpdateReview` | api/src/overall-reviews/overall-reviews.service.ts:73-89 | the row rewritten is the one the process has now, the entries replaced are those of the review read earlier; nothing happens when the process has none |
| `QueueStore.Tables.Delete` | api/src/round-ratings/round-ratings.service.ts:116-119 | entity and entries disappear together, or nothing does |
| `QueueStore.Tables.DeleteReview` | api/src/overall-reviews/overall-reviews.service.ts:105-108 | the entries of the review read earlier and the row the process has now disappear together, or nothing does |
| `QueueStore.Tables.CommitReview` | api/src/moderation/moderation.service.ts:867-925 | decision, entity status and audit row are written together, only on an entry nobody has decided, or the tables stay as they were |
| `QueueStore.Tables.CommitClaim` | api/src/moderation/moderation.service.ts:742-745 | takes effect exactly on an unreviewed, unclaimed entry |
| `QueueStore.Tables.CommitRelease` | api/src/moderation/moderation.service.ts:778-781 | takes effect exactly for the moderator who holds the entry |
| `Undisturbed.SubmitAlone` | api/src/round-ratings/round-ratings.service.ts:18-36 | the whole state after a submission from any state: a pending entity with its owner and text, an entry with its flag and deadline, or nothing for a second review of a process |
| `Undisturbed.EditAlone` | api/src/round-ratings/round-ratings.service.ts:66-94 | an edit nobody interrupts rewrites text, status, verdict and open entry exactly when the entity is its caller's and not closed to edits, and otherwise changes nothing |
| `Undisturbed.ReviewEditAlone` | api/src/overall-reviews/overall-reviews.service.ts:61-89 | the same for the review a process has |
| `Undisturbed.DeleteAlone` | api/src/round-ratings/round-ratings.service.ts:110-119 | a delete nobody interrupts takes the entity and its entries exactly when it is its caller's and no entry has an audit row |
| `Undisturbed.ReviewDeleteAlone` | api/src/overall-reviews/overall-reviews.service.ts:99-108 | the same for the review a process has |
| `Undisturbed.RulingAlone` | api/src/moderation/moderation.service.ts:807-925 | from any state a moderator's request decides exactly an open entry whose entity is there, escalated ones only for an admin or as a flag; an open entry whose entity is gone is deleted unless audited; otherwise nothing changes |
| `Undisturbed.ClaimAlone` | api/src/moderation/moderation.service.ts:732-745 | a claim nobody interrupts takes exactly an open entry that nobody holds |
| `Undisturbed.ReleaseAlone` | api/src/moderation/moderation.service.ts:768-781 | a release nobody interrupts frees exactly what its caller holds |
| `Undisturbed.OrphanAlone` | api/src/moderation/moderation.service.ts:608-632 | the queue view's check deletes exactly an open entry whose entity is gone and that no audit row documents |
| `Undisturbed.AlertAlone` | api/src/moderation/sla-breach-detection.service.ts:70-160 | one alert and one stamp for exactly an open entry that is past its deadline, or unclaimed with at most a quarter of the window left, and not yet alerted so |
| `Lifecycle.ExplainedStep` | api/src/moderation/moderation.service.ts:289-296 | every transaction keeps: all entries but the newest are decided, and the newest explains its entity's status and content; after an edit that had read another review it still explains any status other than pending |
| `Lifecycle.RuleIffExplained` | api/src/moderation/moderation.service.ts:863-864 | that invariant is equivalent to the status rule in terms of the entity's entries alone |
| `Lifecycle.DeleteSucceedsIff` | api/prisma/migrations/20260729180000_add_ai_auto_approval_audit/migration.sql:27 | a delete goes through exactly when no entry of the entity was auto-approved |
| `History.CoreStep` | api/src/moderation/moderation.service.ts:807-925 | every transaction keeps the log of openings, decisions, claims and audits in step with the tables |
| `ProtocolInv.InvStep` | api/src/moderation/moderation.service.ts:732-925 | every step of every call keeps the protocol's invariant, under any interleaving |
| `Theorems.StatusFollowsNewestEntry` | api/src/moderation/moderation.service.ts:807-925 | in every run, unless an edit that had read another review landed on it, an entity has at most one unreviewed entry, is pending exactly when it has one, and otherwise takes its newest entry's decision, or permanent rejection if that entry was escalated |
| `Theorems.WrittenByIdIsUntouched` | api/src/round-ratings/round-ratings.service.ts:78-94 | no such edit ever lands on a round rating, recruiter rating or company |
| `Theorems.LooseRuleAlwaysHolds` | api/src/moderation/moderation.service.ts:807-925 | with or without such edits: at most one unreviewed entry, pending while there is one, and a status other than pending is the newest entry's outcome |
| `Theorems.ApprovedMeansReviewed` | api/src/round-ratings/round-ratings.service.ts:78-94 | an approved entity no such edit landed on shows a submission that an approving decision was made about |
| `StaleWrites.OnlyTheOwnerEditsOrDeletes` | api/src/round-ratings/round-ratings.service.ts:66-119 | content changes and deletions come from the owner's own calls or, for an overall review, from calls that had read an earlier review of its process; no call deletes a company |
| `StaleWrites.OwnWritesOnlyForeverIff` | api/src/overall-reviews/overall-reviews.service.ts:61-108 | the second kind never happens again exactly when no checked edit or delete of an earlier review is in flight, deletes that an audit row refuses not counting |
| `StaleWrites.RuleHoldsForeverIff` | api/src/overall-reviews/overall-reviews.service.ts:61-89 | the status rule holds now and ever after exactly when it holds now and no checked edit of an earlier review of the process is in flight |
| `Witnesses.OverwrittenReview` | api/src/overall-reviews/overall-reviews.service.ts:61-89 | a run that leaves another candidate's approved review pending with no open entry, showing the late text, and opens an entry for a deleted review |
| `Witnesses.UnreviewedTextApproved` | api/src/overall-reviews/overall-reviews.service.ts:61-89 | a run that approves a text no entry was opened for |
| `Witnesses.DecisionsForgotten` | api/src/overall-reviews/overall-reviews.service.ts:73-89 | a run that opens an entry not escalated after three decisions and an escalated entry |
| `StaleWrites.PermanentRejectionIsFinalIff` | api/src/round-ratings/round-ratings.service.ts:67-78 | a permanently rejected rating or overall review stays so in every future exactly when no checked edit that would write it is still in flight |
| `Witnesses.RejectedWithEditInFlight` | api/src/round-ratings/round-ratings.service.ts:67-78 | a run in which such an edit is in flight, and the rejection is not final |
| `StaleWrites.CompanyRejectionIsFinalIff` | api/src/companies/companies.service.ts:81-97 | a permanently rejected company stays so in every future exactly when it has no owner |
| `StaleWrites.AutoApprovedIsNeverDeleted` | api/prisma/migrations/20260729180000_add_ai_auto_approval_audit/migration.sql:27 | after an auto-approval no delete that had read the entity ever removes it |
| `StaleWrites.AutoApprovedStaysIff` | api/src/overall-reviews/overall-reviews.service.ts:99-108 | after an auto-approval no service call ever deletes the entity exactly when no checked delete of an earlier review of its process, which no audit row refuses, is in flight |
| `Witnesses.DeleteIsRefused` | api/src/round-ratings/round-ratings.service.ts:104-119 | a run in which an owner's delete of an auto-approved rating passes its check and is refused |
| `Theorems.EscalatedIffThreeDecisions` | api/src/moderation/moderation.service.ts:289-296 | an entry of an entity that is there is opened escalated exactly when the entity has been decided three or more times |
| `Theorems.OnlyTheGoneAreOpenedDead` | api/src/overall-reviews/overall-reviews.service.ts:73-89 | an entry opened for an entity that is gone is one of an overall review |
| `Escalation.FlagAgreesIff` | api/src/moderation/moderation.service.ts:289-296 | for every entry of every run: never escalated with fewer than three decisions, and escalated in agreement with the decisions made exactly when fewer than three were made or three decided entries were still kept |
| `Escalation.KeptAreAtMostDecisions` | api/src/moderation/moderation.service.ts:277-288 | in every run, also of entities that are gone, the decided entries kept are at most the decisions made |
| `Escalation.OwnDeleteErases` | api/src/overall-reviews/overall-reviews.service.ts:105-108 | a committed delete leaves neither the entity nor a decided entry of it |
| `Escalation.LateEntriesAreNotEscalated` | api/src/overall-reviews/overall-reviews.service.ts:73-89 | in every continuation after that, an entry of the deleted review is not escalated, which is right exactly when fewer than three decisions were made before |
| `Escalation.LateEntryIff` | api/src/overall-reviews/overall-reviews.service.ts:61-89 | an entry is opened later for a review that is gone exactly when an edit that had read it has passed its checks and is in flight |
| `Escalation.DecisionsAreForgottenIff` | api/src/overall-reviews/overall-reviews.service.ts:61-108 | some continuation forgets the decisions about a deleted review exactly when three or more were made and such an edit is in flight |
| `Theorems.DecisionsAreReviewedEntries` | api/src/moderation/moderation.service.ts:289-293 | the reviewed rows kept in the table are an exact count of the decisions ever made |
| `Escalation.EscalationIsPermanent` | api/src/moderation/moderation.service.ts:277-288 | after an escalated entry a later entry of the entity is escalated exactly when the entity was there or three decided entries were still kept |
| `Theorems.EscalatedNeedsAdmin` | api/src/moderation/guards/escalated-entry.guard.ts:22-41 | an escalated entry is approved or rejected by an admin only, never automatically, although guard and commit are separate steps |
| `Theorems.EntriesAreImmutable` | api/src/moderation/moderation.service.ts:289-296 | an entry's entity, submission and escalation never change while it exists |
| `Theorems.AuditsMatchAutoApprovals` | api/src/moderation/moderation.service.ts:910-923 | audit rows and automatic approvals correspond one to one in order, at most one per entry, and each rests on an analysis that met the threshold in force when it ran |
| `Verdicts.EligibleEventSupportsItsAudit` | services/review-analyzer/src/analysis/analysis.service.ts:190-199 | an event says eligible exactly when the analysis was enabled, not concerning, and confident to the threshold of that moment |
| `TriageSweep.ReconciliationSweepService.ReconcileOne` | services/review-analyzer/src/analysis/reconciliation-sweep.service.ts:94-109 | publishes the new verdict, or a stalled report if there is none and the entity still exists, or nothing |
| `TriageSweep.ReconciliationSweepService.Sweep` | services/review-analyzer/src/analysis/reconciliation-sweep.service.ts:42-61 | one event per stale row in row order, and none at all while the feature is off |
| `TriageSweep.OneEventPerStaleRow` | services/review-analyzer/src/analysis/reconciliation-sweep.service.ts:63-109 | every stale row gets exactly one event, stalled exactly when its analysis failed again |
| `TriageSweep.DeliveryEndsStaleness` | api/src/verdict-consumer/verdict-consumer.service.ts:218-322 | in every reachable state a delivered, well-formed verdict is stored in its stale row; a delivered stalled report settles the row, by flagging its open entry, exactly when it has one, as every row has that no edit of another review landed on |
| `TriageSweep.StaleRowsCanBeSettled` | api/src/verdict-consumer/verdict-consumer.service.ts:218-322 | the consumer's query has an answer in every reachable state, with which the delivery comes out so |
| `TriageSweep.VerdictIsAppliedIff` | api/src/verdict-consumer/verdict-consumer.service.ts:218-300 | from any state, consuming a verdict stores it; exactly when the analysis is enabled, not concerning and confident enough and the newest open entry is not escalated, that entry and its entity are approved and one audit row is written; nothing else changes |
| `TriageSweep.VerdictIsOfTheShownText` | api/src/round-ratings/round-ratings.service.ts:79-91 | in every run a row's verdict is that of the last event about it consumed since its text was last written, and none if there was none |
| `TriageSweep.EditedRowIsRetried` | api/src/round-ratings/round-ratings.service.ts:79-91 | after an edit and until such an event is consumed the row has no verdict, so while pending the sweep selects it once it has waited long enough |
| `TriageSweep.SelectedIff` | services/review-analyzer/src/analysis/reconciliation-sweep.service.ts:63-83 | in every run the sweep selects exactly the pending rows that waited long enough and about whose present text no event was consumed |
| `TriageSweep.StoredVerdictIsReadable` | api/src/verdict-consumer/dto/verdict-computed-event.dto.ts:26-34 | in every run a stored verdict's confidence is a number or null, because any other event is dropped |
| `Theorems.ClaimsAndReleases` | api/src/moderation/moderation.service.ts:732-794 | no claim commits on a held or decided entry, and only the holder releases |
| `Theorems.ClaimsAlternate` | api/src/moderation/moderation.service.ts:732-794 | claims and releases of an entry alternate, each release by the moderator of the claim before it |
| `Theorems.ClaimHoldsUntilOwnRelease` | api/src/moderation/moderation.service.ts:732-794 | a committed claim lasts until that moderator's own release or the entry's deletion |
| `Theorems.AnnouncedOnce` | api/src/moderation/moderation.service.ts:958-970 | each submission, resubmission and decision is published at most once |
| `Theorems.AnnouncedDecisionsHappened` | api/src/moderation/moderation.service.ts:958-970 | a published decision was committed, on that entry and with that status |
| `Announcements.EveryDecisionIsAnnounced` | api/src/moderation/moderation.service.ts:958-970 | in every run a decision about an entity that is still there with an owner has been published with its outcome, or the call that made it is about to |
| `Announcements.EverySubmissionIsAnnounced` | api/src/round-ratings/round-ratings.service.ts:24-45 | so has every first submission |
| `Announcements.EveryResubmissionIsAnnounced` | api/src/round-ratings/round-ratings.service.ts:78-100 | so has every resubmission of anything but a company, once for each entry it opened |
| `Announcements.OnlyTheReachableAreAnnounced` | api/src/moderation/moderation.service.ts:1231-1256 | nothing is published about an entity that is gone, nor a first submission or decision with nobody to notify |
| `DedupKeys.KeyIsInjective` | services/notification-service/src/notifications/notification-consumer.service.ts:148-267 | keys computed from the event type strings are equal only for the same submission, resubmission, decision, alert or staff action |
| `DedupKeys.KeyInFull` | services/notification-service/src/notifications/notification-consumer.service.ts:148-180 | what the consumer reads off the type string is, for every subject, the key the notification sweep builds from the tables |
| `Notification.SharedKeyMeansSameEvent` | services/notification-service/src/notifications/notification-consumer.service.ts:500-512 | in every run of the protocol two published events with one key are the same event |
| `Notification.NotificationConsumer.ProcessEvent` | services/notification-service/src/notifications/notification-consumer.service.ts:465-543 | an uninterrupted handler mails and records exactly when the key is new and the mail can be sent |
| `Notification.HandlerLeftAlone` | services/notification-service/src/notifications/notification-consumer.service.ts:465-543 | the interleaved handler agrees with it when nothing comes between its statements |
| `Notification.OneRowPerKey` | services/notification-service/src/notifications/notification-consumer.service.ts:535-542 | at most one log row per key, under any interleaving with crashes |
| `Notification.RowsFollowSends` | services/notification-service/src/notifications/notification-consumer.service.ts:522-542 | a row exists only after its handler sent the mail |
| `Notification.SendsFollowChecks` | services/notification-service/src/notifications/notification-consumer.service.ts:508-522 | a mail is sent only by a handler that looked before the row existed |
| `Notification.SuppressedOnlyByItself` | services/notification-service/src/notifications/notification-consumer.service.ts:508-513 | an email is suppressed only after one about the very same occurrence, so never by an earlier decision |
| `Notification.SendsAreBounded` | services/notification-service/src/notifications/notification-consumer.service.ts:524-534 | with handlers that do not overlap, mails per key are at most one plus the crashes between send and record |
| `ReconciliationSweep.Sweeper.Reconcile` | services/notification-service/src/notifications/reconciliation-sweep.service.ts:89-164 | one row is mailed and recorded exactly when its mail is due, its key not logged and its send does not throw |
| `ReconciliationSweep.Sweeper.Sweep` | services/notification-service/src/notifications/reconciliation-sweep.service.ts:57-85 | a sweep sends and logs the due mails missing from the log, decisions before creations, up to the first whose send throws |
| `ReconciliationSweep.MissedIsExact` | services/notification-service/src/notifications/reconciliation-sweep.service.ts:89-144 | the mails missing are due, not logged and of distinct keys, and with them logged every due mail is |
| `ReconciliationSweep.CreationLoggedIff` | services/notification-service/src/notifications/reconciliation-sweep.service.ts:125-144 | after a sweep in which no send throws, the log holds a listed submission's key exactly when it did before or the entity is there with an owner whose address is on file |
| `ReconciliationSweep.DecisionLoggedIff` | services/notification-service/src/notifications/reconciliation-sweep.service.ts:89-119 | the same for decisions, which must also not be about a company and leave the entity approved or rejected |
| `ReconciliationSweep.SentMailsAreDue` | services/notification-service/src/notifications/reconciliation-sweep.service.ts:89-144 | every mail a sweep sends goes to the owner of an entity that is there, whose address is on file, and about a decision reports its status |
| `ReconciliationSweep.SilentIffAllLogged` | services/notification-service/src/notifications/reconciliation-sweep.service.ts:89-144 | a sweep has nothing to send exactly when every due mail is logged |
| `ReconciliationSweep.SentIffNothingThrewBefore` | services/notification-service/src/notifications/reconciliation-sweep.service.ts:57-85 | a missing mail is sent exactly when no send up to and including its own throws |
| `ReconciliationSweep.NextSweepSendsTheRest` | services/notification-service/src/notifications/reconciliation-sweep.service.ts:57-85 | over unchanged tables the next sweep has exactly the rest to send, nothing at all exactly when no send threw |
| `ReconciliationSweep.OneBadMailStarvesTheRest` | services/notification-service/src/notifications/reconciliation-sweep.service.ts:57-84 | while one send keeps throwing, no number of sweeps sends more than the first did |
| `ReconciliationSweep.MailReportsNewestOutcome` | services/notification-service/src/notifications/reconciliation-sweep.service.ts:98-112 | in every run a mail about a reviewed entry reports the outcome of its entity's newest entry, so the entry's own exactly when the two agree |
| `Witnesses.LateMailReportsTheApproval` | services/notification-service/src/notifications/reconciliation-sweep.service.ts:98-112 | a run whose mail about a rejecting decision reports an approval |
| `Sla.SlaBreachDetection.Notify` | api/src/moderation/sla-breach-detection.service.ts:105-159 | publishes one alert and stamps that entry, nothing else |
| `Sla.SlaBreachDetection.Sweep` | api/src/moderation/sla-breach-detection.service.ts:65-103 | alerts and stamps exactly the selected entries, warnings before breaches |
| `Sla.AlertsInOrder` | api/src/moderation/moderation.service.ts:978-980 | an entry's alerts read warning at most once, breach at most once, then a resolution exactly when it was reviewed after one of them |
| `Sla.WarnedBeforeBreached` | api/src/moderation/sla-breach-detection.service.ts:36-89 | with sweeps at most a quarter window apart, an entry unclaimed until its deadline is warned about before it is reported breached |
| `Throttle.EditThrottleService.RecordAttemptIfAllowed` | api/src/common/edit-throttle.service.ts:45-71 | without interference the three statements decide and write as one |
| `Throttle.IpThrottle.Admit` | api/src/common/ip-throttle.ts:23-38 | the guard's check and record decide and write as one |
| `Throttle.SlidingBound` | api/src/common/edit-throttle.service.ts:45-71 | any closed interval of one window lets through at most 2 * cap - 1 attempts of a key |
| `Throttle.EditsPerHour` | api/src/common/edit-throttle.service.ts:18-19 | at most nine edits in any hour |
| `Throttle.BoundIsMet` | api/src/common/edit-throttle.service.ts:45-71 | a sequence of attempts that reaches the bound, for every window and cap |
| `Throttle.SameDecisions` | api/src/common/ip-throttle.ts:23-38 | a table window of W ms and an in-memory window of W + 1 ms give the same decisions and rows on every sequence |
| `Throttle.SlidingBoundIp` | api/src/common/ip-throttle.ts:23-38 | the in-memory throttle keeps the same bound over one window |
| `Throttle.KeysAreIndependent` | api/src/common/ip-throttle.ts:21-38 | decisions and row of a key are those of its own attempts alone |
| `ThrottleRace.EditsPerWindowStarted` | api/src/common/edit-throttle.service.ts:45-71 | however the statements interleave, the count stays within 1 to 5 and edits let through are at most 5 per window started |
| `ThrottleRace.UninterruptedIsAtomic` | api/src/common/edit-throttle.service.ts:45-71 | a call nobody interrupts is the atomic call |
| `ThrottleRace.RestartForgets` | api/src/common/edit-throttle.service.ts:59-69 | in every reachable state, starting a window forgets exactly what a row still current counted, at most one edit exactly when the row is absent, stale or counts one |
| `ThrottleRace.RowCountsAllIffNotOverwritten` | api/src/common/edit-throttle.service.ts:45-71 | in every run the row counts the edits of its window less what overwrites forgot, all of them exactly when nobody overwrote the window |
| `ThrottleRace.OneOverwriteForgetsFive` | api/src/common/edit-throttle.service.ts:59-69 | a run in which six edits pass, two windows are started and the row counts one |
| `ThrottleRace.ShortfallIsUnbounded` | api/src/common/edit-throttle.service.ts:59-65 | for every n, n simultaneous callers can all pass while the row counts one of them |
| `Grouping.FillMap` | api/src/moderation/moderation.service.ts:401-416 | the loop over a Map yields the keys in order of first appearance, each with exactly its rows in order |
| `Grouping.GroupRows` | api/src/moderation/moderation.service.ts:401-418 | the Map's values are the grouping by key |
| `Grouping.GroupsPartition` | api/src/moderation/moderation.service.ts:401-418 | the groups together hold every row exactly as often as it occurs |
| `Grouping.RowIsFiled` | api/src/moderation/moderation.service.ts:401-416 | each row stands in the group of its key, after the earlier rows with that key |
| `Grouping.GroupsAreSorted` | api/src/moderation/moderation.service.ts:395-400 | for sorted rows each group starts with its lowest row and the groups come in the order of these |
| `CompanyReviews.FindApprovedReviews` | api/src/companies/companies.service.ts:189-276 | page p lists the groups the second query finds for slice p of the first query's processes, in that order; when both see the same ratings it is slice p of all approved ratings, newest first, grouped by first appearance |
| `CompanyReviews.RankingIsFirstAppearance` | api/src/companies/companies.service.ts:207-216 | ordering processes by their latest rating is their order of first appearance |
| `CompanyReviews.PageKeepsGroups` | api/src/companies/companies.service.ts:226-241 | fetching only a page's processes loses no rating of any of them |
| `CompanyReviews.ReorderingChangesNothingIff` | api/src/companies/companies.service.ts:226-273 | whatever the second query sees, the final re-ordering is the identity exactly when the processes it finds are still ranked as the first query ranked them |
| `CompanyReviews.ReorderingChangesNothing` | api/src/companies/companies.service.ts:266-273 | over one snapshot with distinct creation times it always is |
| `CompanyReviews.PagesCoverEachProcessOnce` | api/src/companies/companies.service.ts:189-276 | pages 1 to ceil(total / pageSize) list every process once with all its ratings, and later pages are empty |
| `Listing.QueueReader.EntityById` | api/src/moderation/moderation.service.ts:504-607 | the merged map answers for each row as its own type's fetch did, nothing for a failed fetch |
| `Listing.QueueReader.EnrichEntries` | api/src/moderation/moderation.service.ts:500-644 | the rows kept, what is attached to each, and exactly which queue entries are deleted |
| `Listing.QueueReader.FetchPriorReviews` | api/src/moderation/moderation.service.ts:653-692 | every row gets all reviewed entries of its own entity, newest first |
| `Listing.QueueReader.ListPending` | api/src/moderation/moderation.service.ts:330-419 | the view is the enriched rows grouped by submission |
| `Listing.DroppedIffGone` | api/src/moderation/moderation.service.ts:608-632 | whatever fetches fail, an entry is deleted exactly when its entity is gone and its fetch succeeded |
| `Listing.RestInOrder` | api/src/moderation/moderation.service.ts:634-644 | the other rows stay in query order, each with the fetched reviewed entries of its own entity |
| `Listing.FullHistory` | api/src/moderation/moderation.service.ts:653-692 | what the query for reviewed entries answers gives every listed row exactly the reviewed entries of its entity, newest first |
| `Listing.GroupsByUrgency` | api/src/moderation/moderation.service.ts:395-418 | groups have distinct keys, hold every row once, start with their most urgent entry and come in that order |
| `Listing.SameGroupIff` | api/src/moderation/moderation.service.ts:395-415 | two listed entries share a group exactly when they belong to one interview process or are the same company; an entry whose entity was not fetched is alone |
| `SearchIndex.DocsArePending` | api/src/moderation/moderation.service.ts:1334-1367 | while index writes land, the documents are exactly the entities with an unreviewed entry, erasures that bypass the services included |
| `SearchIndex.ModerationQueueSearchService.Load` | api/src/moderation/moderation.service.ts:608-632 | under any failed fetches one load of the queue removes the documents of the dropped entries and adds one for every entry whose entity was found |
| `SearchIndex.ModerationQueueSearchService.Reindex` | api/src/moderation/moderation.service.ts:389-393 | adds a document for every entry whose entity was found |
| `SearchIndex.QueueViewRestoresDocs` | api/src/moderation/moderation.service.ts:368-393 | after any loss of writes, erasures and failed fetches, one unfiltered load of at most 500 pending entries leaves, among the types fetched, no pending entry without its entity, a document of every one left, and no others if no stale one was there; a type whose fetch failed keeps its entries and exactly its documents |
| `SearchIndex.ModerationQueueSearchService.InHitOrder` | api/src/moderation/moderation.service.ts:447-452 | the entries found, stably sorted by their hit's position |
| `SearchIndex.SearchIsFaithful` | api/src/moderation/moderation.service.ts:430-453 | under any staleness, failed fetches and erasures, search returns unreviewed entries only, one per hit, in hit order, and a hit's unreviewed entry exactly when its entity exists or its fetch failed |
| `Bulk.BulkProcessSubmissionService.AddRating` | api/src/round-ratings/round-ratings.service.ts:24-35 | rating and queue entry appear together with the flag computed before them, or nothing does |
| `Bulk.BulkProcessSubmissionService.Create` | api/src/bulk-process-submission/bulk-process-submission.service.ts:47-164 | the tables, flags and events are those of the single endpoints called one after the other, or nothing changes and the refusal is the same |
| `Bulk.RoundsAddEvents` | api/src/bulk-process-submission/bulk-process-submission.service.ts:149-152 | publishing at the end instead of after each rating changes neither tables nor order |
| `Bulk.FlagsOfOneSubmission` | api/src/fraud-checks/fraud-checks.service.ts:51-138 | one submission counts once: all its entries are rate-limited, when two recent processes preceded it, or none is; and any text like an earlier one is flagged |
| `Bulk.LimitedIffTwoRecent` | api/src/fraud-checks/fraud-checks.service.ts:51-57 | an entry of a submission is rate-limited exactly when its candidate already had two distinct processes created in the last 24 hours |
| `Bulk.OthersChangeNothing` | api/src/fraud-checks/fraud-checks.service.ts:51-57 | adding or removing other candidates' processes changes no flag of a submission |
| `Submissions.SubmissionAcceptedIff` | api/src/bulk-process-submission/bulk-process-submission.service.ts:47-164 | in every run a bulk submission is refused exactly for an unapproved company or invalid metadata of a round: no part of it can be missing, forbidden or taken |
| `Submissions.SubmissionIsStored` | api/src/bulk-process-submission/bulk-process-submission.service.ts:47-164 | accepted in any run, a submission is stored in full: its process, every round and interaction with its rating, and the review, under the caller's name |
| `Submissions.CallersAddTheirOwn` | api/src/rounds/rounds.service.ts:16-37 | in every run no call changes or removes a row; new processes, rounds and interactions are in processes of the caller, with valid metadata, and each new rating is the caller's and has an entry due one window later |
| `Submissions.OneRatingEach` | api/prisma/schema.prisma:358-424 | in every run a candidate has at most one rating of a round or interaction and a process at most one review, and what is rated exists |
| `Submissions.RatingAcceptedIff` | api/src/fraud-checks/fraud-checks.service.ts:51-138 | from any state a rating is refused exactly when its parent is missing or taken; otherwise its entry is flagged for the rate with three recent processes, else as a duplicate of a similar text of its kind, else not |
| `Submissions.RecruitersAreLettered` | api/src/recruiters/recruiters.service.ts:16-47 | in every run the n recruiters of a company carry the first n characters from A on, one each, and every interaction is with a recruiter of its process's company |
| `Submissions.InteractionIsWith` | api/src/recruiter-interactions/recruiter-interactions.service.ts:18-35 | an interaction is added exactly to a process of the caller, with the recruiter filed under the identifier's hash, an old one unchanged if there is one |
| `Staff.StaffAccountsService.Create` | api/src/staff-accounts/staff-accounts.service.ts:146-185 | a new active account with its creator, and one audit entry, unless the username is taken |
| `Staff.StaffAccountsService.UpdateRole` | api/src/staff-accounts/staff-accounts.service.ts:200-246 | role changed and audited, or refused: unknown, root, or the last active admin |
| `Staff.StaffAccountsService.Deactivate` | api/src/staff-accounts/staff-accounts.service.ts:248-282 | switched off and audited, or refused likewise |
| `Staff.StaffAccountsService.Reactivate` | api/src/staff-accounts/staff-accounts.service.ts:284-311 | switched on and audited, unless unknown or root |
| `Staff.StaffAccountsService.ResetPassword` | api/src/staff-accounts/staff-accounts.service.ts:313-339 | only the password changes, audited, unless unknown or root |
| `Staff.AlwaysAManager` | api/src/staff-accounts/staff-accounts.service.ts:194-260 | once an active admin other than root exists, one exists ever after |
| `Staff.LastAdminIff` | api/src/staff-accounts/staff-accounts.service.ts:194-217 | the guard refuses exactly the changes that would leave none |
| `Staff.RootsNeverChange` | api/src/staff-accounts/staff-accounts.service.ts:101-107 | no call creates, removes or changes a root account |
| `Staff.LogReplaysToState` | api/src/staff-accounts/staff-accounts.service.ts:164-169 | replaying the audit log rebuilds role and active flag of every managed account and of no other |
| `Staff.RoleChangesChain` | api/src/staff-accounts/staff-accounts.service.ts:225-230 | consecutive role changes of an account chain from old to new |
| `Staff.AccountsAreAsSet` | api/src/staff-accounts/staff-accounts.service.ts:146-339 | in every run each field of a managed account is what the last accepted call about that field set, passwords included |
| `Staff.UsernamesStayUnique` | api/src/staff-accounts/staff-accounts.service.ts:153-162 | usernames that are unique stay so in every run |
| `Staff.CreatedIff` | api/src/staff-accounts/staff-accounts.service.ts:146-185 | an account is created exactly when no account, active or not, has its username |
| `Staff.EveryChangeIsAttributed` | api/src/staff-accounts/staff-accounts.service.ts:164-169 | the audit log has exactly one entry for each accepted call, in order, naming its caller and the account changed |
| `CandidateAuth.CandidateAuthService.Register` | api/src/candidate-auth/candidate-auth.service.ts:63-85 | attaches a password to a candidate without one and issues a session, whether or not the mail goes out |
| `CandidateAuth.CandidateAuthService.Verify` | api/src/candidate-auth/candidate-auth.service.ts:108-146 | a good link is consumed, its candidate verified and signed in; the three refusals leave everything as it was |
| `CandidateAuth.CandidateAuthService.RequestPasswordReset` | api/src/candidate-auth/candidate-auth.service.ts:155-172 | a known candidate's earlier resets are superseded by one new token |
| `CandidateAuth.CandidateAuthService.ConfirmPasswordReset` | api/src/candidate-auth/candidate-auth.service.ts:189-216 | token consumed, password set, version raised and a session of the new version issued |
| `CandidateAuth.OneOpenTokenEach` | api/src/candidate-auth/candidate-auth.service.ts:233-242 | at most one open link and one open reset per candidate, and no token ever gives two sessions |
| `CandidateAuth.LinkWorksIff` | api/src/candidate-auth/candidate-auth.service.ts:108-122 | a link works exactly when it is its candidate's newest, unused and not expired |
| `CandidateAuth.ResetWorksIff` | api/src/candidate-auth/candidate-auth.service.ts:189-201 | the same for a password reset |
| `CandidateAuth.TokensAreAsIssued` | api/src/candidate-auth/candidate-auth.service.ts:230-242 | in every run each token belongs to the candidate it was requested for and expires 15 minutes after that |
| `CandidateAuth.LoginIff` | api/src/candidate-auth/candidate-auth.service.ts:93-106 | in every run a login gives a session exactly with the password of the candidate's last registration or completed reset |
| `CandidateAuth.VerifiedIffFollowed` | api/src/candidate-auth/candidate-auth.service.ts:124-143 | a candidate is verified exactly when one of its links was followed |
| `CandidateAuth.SessionValidIff` | api/src/candidate-auth/strategies/candidate-jwt.strategy.ts:43-54 | a session validates exactly until its candidate next completes a reset |
| `CandidateAuth.ResetEndsEarlierSessions` | api/src/candidate-auth/candidate-auth.service.ts:204-216 | after a reset no earlier session of that candidate validates again, whatever follows |
| `Analytics.WeightedAverageIsRawAverage` | api/src/analytics/global-averages.service.ts:45-69 | before rounding, the sample-weighted average over any number of companies is the average of the raw ratings |
| `Analytics.RoundedAverageIsClose` | api/prisma/migrations/20260725052729_redesign_round_rating_traits/migration.sql:40-43 | with the views' rounding it is within 0.005 of it |
| `Analytics.RoundingInvisibleIff` | api/src/analytics/global-averages.service.ts:45-69 | with rounding, the weighted average is the raw average exactly when the sample-weighted rounding errors sum to zero |
| `Analytics.TwoDecimalsSuffice` | api/prisma/migrations/20260725052729_redesign_round_rating_traits/migration.sql:40-43 | it is when no company average has more than two decimals |
| `Analytics.OneCompanyIff` | api/src/analytics/global-averages.service.ts:45-50 | with one company it is exactly when the raw average has at most two decimals |
| `Analytics.RoundingShows` | api/src/analytics/global-averages.service.ts:45-50 | three ratings for which the two differ |
| `Analytics.ScoreLiesBetween` | api/src/analytics/shrinkage-score.util.ts:9-22 | no score below three ratings; otherwise it lies between the two averages at k / (n + k) of their gap from the company's |
| `Analytics.OwnRatingsOutweighIff` | api/src/analytics/shrinkage-score.util.ts:3-22 | with the default k the score is nearer to the company's own average exactly from nine ratings on |
| `Analytics.InfluenceIsBounded` | api/src/analytics/shrinkage-score.util.ts:9-22 | m more ratings in [lo, hi] move the score by at most m * (hi - lo) / (n + m + k), the platform average held fixed |

## Left out

* Protocol calls as objects: calls in flight are values with a program counter, because their
  interleaving is the point; the transactions inside them are imperative, in `QueueStore`.
* `reviewNote`, `rejectionReasonCategory` and other columns nothing is decided by; the columns of
  a round, rating or company beyond its text.
* `sla_resolved` at step level: it is modelled with atomic calls in `Sla` only.
* Rows reviewed before the `decision` column existed; every reviewed row here has a decision.
* The guard on claims and the permission tables; who may call what beyond ownership and escalation.
* `MeService.eraseMe` and other direct SQL, except as a step that removes an entity row alone.
* Kafka connections, consumer offsets and retries; the bus is a set of published events from which
  handlers may start in any order, any number of times or never.
* OpenSearch relevance, text similarity, the LLM, password hashing and encryption: parameters or
  arbitrary results. Token and email hashes are taken as unique.
* When the triage service analyses a row: the protocol lets an analysis or a stalled report be
  published for any entity at any time, and `TriageSweep` adds what the sweep alone publishes.
* One mail per subject: an alert to several moderators is sent as one, so a failure between two
  recipients of the same alert is not modelled.
* The log write after a send succeeds in `ReconciliationSweep`; a sweep or consumer that dies between
  the two is in `Notification`.
* Statements of one read that see different snapshots: the queue view reads one state, and so do the
  count and the ranking of the paged review list.
* The order in which a sweep's rows arrive, and rows read by one call and changed by another during
  it, outside the protocol: `Sla`, `ReconciliationSweep`, `Listing`, `SearchIndex`, `Bulk`, `Staff`
  and `CandidateAuth` take whole calls as atomic.
* Deletions in the runs of `Submissions`, of ratings or of an empty process: its calls only add.
* Boot-time reseeding of the root admin, and an administrator's own password change.
* Filters of the queue view: its query is a list of rows handed to it.
* `findTop`, its shuffle, and the flat company list: easy members.
* Floating point and numeric overflow; only the views' rounding to two decimals is modelled.
* Refresh of the aggregation views: the averages are those of the rows the views last saw.
