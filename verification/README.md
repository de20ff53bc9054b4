# Verified model of the newsletter service

This project models the newsletter service's send lifecycle, its SendGrid
engagement store and its declarative email compiler, and proves what they promise:
over every run, every input and every interleaving. `dafny verify dfyconfig.toml`
checks all of it.

| part | files |
|---|---|
| the newsletters table and its guarded statements | `Repository.dfy` |
| the per-recipient dispatch loop, every goroutine interleaving | `FanOut.dfy` |
| the send lifecycle as a state machine, its invariant, what follows | `Lifecycle.dfy`, `LifecycleRuns.dfy`, `LifecycleInvariant.dfy`, `LifecycleMoves.dfy`, `LifecycleHolders.dfy`, `LifecycleSafety.dfy`, `LifecycleRevert.dfy`, `LifecycleOverlap.dfy`, `LifecycleRows.dfy`, `LifecycleRequests.dfy`, `LifecycleOutcomes.dfy`, `LifecycleClock.dfy` |
| timing clamps, recipient resolution, committee pagination | `Timing.dfy`, `Recipients.dfy`, `Pagination.dfy` |
| the SendGrid dispatcher, webhook and engagement store | `Dispatcher.dfy`, `Webhook.dfy`, `EngagementStore.dfy`, `Engagement.dfy`, `EngagementInstants.dfy` |
| the two analytics reports | `Reports.dfy`, `ReportRules.dfy` |
| layout limits and template binding | `Layout.dfy`, `Bind.dfy`, `BindRules.dfy`, `BindLaws.dfy` |
| styles, translation to MJML, card shadows | `Styles.dfy`, `Markup.dfy`, `Translation.dfy`, `TranslationLaws.dfy`, `TranslationTexts.dfy`, `TranslationReference.dfy`, `TranslationParts.dfy`, `TranslationComponents.dfy`, `TranslationStream.dfy`, `Translator.dfy`, `CardShadows.dfy` |
| restoring cards in the compiled HTML, block spacing | `Postprocess.dfy`, `CardRules.dfy`, `Spacing.dfy` |
| shared result types and string tests | `Wrappers.dfy`, `Strings.dfy` |

Code that updates state in place is written in place (the table, the engagement
tables, the fan-out counters, the output builder, the loops) and proved against
functions on values; the laws are proved about those functions.

## What the lifecycle assumes

The provider is nondeterministic: each request is accepted, refused or left open, in
any order with the job's own steps. Group and batch ids are fresh; what the
dispatcher reports as a definitive rejection was never accepted; a batch is confirmed
cancelled only while none of its messages was delivered, and is then never delivered.
For the SendGrid dispatcher `Dispatcher.SendEmail` proves the second of these. For the
email-service client it is an assumption with a known limit: that client returns an
unmarked error, which the fan-out counts as a rejection, for a malformed reply
(internal/infrastructure/nats/email_dispatcher.go:154-157) and for a connection lost
after publishing (internal/infrastructure/nats/email_dispatcher.go:177-184), and in both
cases the mail may have gone out.

A job or a call may die at any step, and the clock may advance at any step.
`revertGated = false` is the shipped code. With `true`, `RevertSending` also
requires the claimed version.

A run is *non-overlapping* when no wholly rejected job reverts a row that another
claim holds. Two results need this hypothesis: at-most-once delivery, and that no
earlier send can still deliver behind a draft. Everything else about the lifecycle
holds after every run. For at-most-once delivery `OverlapDeliversTwice` exhibits the
run of the shipped code that breaks it, `RevertSafeIff` gives the exact condition
under which a revert leaves every continuation safe, and `GatedAtMostOnceDelivery`
shows that gating on the version removes the hypothesis.

A run has *honest edits* when every update carries an If-Match no larger than the
version it read. A run is *timely* when no stage of a send takes longer than its own
limit: a job's context expires at most a hand-off and the job timeout after its claim,
every recipient then gets a verdict within a grace, the last write follows within its
own timeout, and no call holds an armed schedule longer than a hand-off.

## Where the code and its comments disagree

The model follows the code.

- A revert after a wholly rejected fan-out is gated on the status alone
  (internal/repository/postgres.go:522), so it can undo a newer claim: see
  `LifecycleOverlap.OverlapDeliversTwice`.
- `Update` is not gated on the status, so a client that guesses the next version can
  rewrite a row being sent: see `LifecycleOverlap.GuessedIfMatchRewritesASendingRow`,
  and `LifecycleRows.EditRewritesTheDraftItRead` for exactly when an update that
  commits rewrites the draft it read.
- The recovery sweep calls a stuck armed row scheduled, as its job would, but an armed
  send without recipients settles its own row sent
  (internal/service/send_orchestrator.go:595-608, internal/repository/postgres.go:661-675):
  see `LifecycleRows.RecoveryAgreesWithTheJob`.
- The age of the stuck-send sweep is clamped against the configured job timeout, but
  a non-positive timeout is replaced by the default afterwards
  (cmd/newsletter-api/service/config.go:261, internal/service/send_orchestrator.go:265):
  see `Timing.SweepBehindJobIff`.
- A rounded Section does not always become exactly one rounded mj-section
  (internal/service/render/declarative/mjml.go:68-74). It does exactly when it has
  columns of its own, or is not empty and either holds no nested multi-column row, or
  only ones that can be table rows, or nothing but a single one: see
  `CardShadows.WholeIff`, `CardShadows.CardsLineUpIff` for whole documents, and
  `CardShadows.EmptyCard` and `CardShadows.PollCardDoubles` for cards that do not.
- Non-column siblings inside a card's table row are dropped, although both other
  paths keep them (internal/service/render/declarative/mjml.go:379): see
  `TranslationTexts.TextLostIff` and `TranslationTexts.TableDropsStragglers`.
- Pushing a dissolved container's style onto its Sections and Rows does not keep its
  padding: it changes nothing that is emitted: see `Translator.PushedFlow`.
- The in-memory report does not name the same last event as the SQL one when a click
  is later than every open, and its daily series falls short of the total when a
  recipient has more than 500 opens: see `Reports.LastEventAgreesIff` and
  `Reports.DailySumsToOpened`.
- A template can spell the spacing wrapper's tag, which would nest two wrappers
  (internal/service/render/declarative/spacing.go:32-35); legal nesting needs that no
  template does: see `TranslationLaws.TranslationIsValid` and
  `Spacing.AssembledIsValid`.

## Model

| member | source | states |
|---|---|---|
| Repository.NewsletterRepo.Create | internal/repository/postgres.go:46-54 | a new row is a version-1 draft without a send, holding the author's content and saved release time; no other row changes |
| Repository.NewsletterRepo.UpdateDraftRow | internal/repository/postgres.go:216-286 | succeeds iff the row was not seen armed before and is now at the given version and not armed; it then holds the new content and release time one version on, its other columns and all other rows as before; each failure has its own error |
| Repository.NewsletterRepo.DeleteDraftRow | internal/repository/postgres.go:291-334 | deletes iff the row is a draft, and nothing else; otherwise nothing changes and each status has its own error |
| Repository.NewsletterRepo.ClaimForSending | internal/repository/postgres.go:349-432 | claims iff the row is a draft at the read version; it is then sending under the group, provider and total given, with the armed release and batch if there are any; a miss names the status found, or the version |
| Repository.NewsletterRepo.SettleSent | internal/repository/postgres.go:440-470 | settles iff the row is sending at the claimed version; it is then sent at the given instant, other columns kept |
| Repository.NewsletterRepo.SettleScheduled | internal/repository/postgres.go:474-502 | becomes scheduled iff the row is sending at the claimed version, other columns kept |
| Repository.NewsletterRepo.RevertFailedSend | internal/repository/postgres.go:508-537 | reverts any sending row, whatever its version, to a draft with nothing of the send but its saved release time |
| Repository.NewsletterRepo.RevertCancelled | internal/repository/postgres.go:548-592 | reverts iff the row is scheduled or sending with exactly the cancelled batch, to a draft that keeps the saved release time; a miss names the status found |
| Repository.NewsletterRepo.RecoverStuck | internal/repository/postgres.go:639-685 | stuck rows settle to sent now, armed ones to scheduled, the others stand; the count is the number of stuck rows |
| Repository.NewsletterRepo.SettleDueScheduled | internal/repository/postgres.go:599-625 | every due scheduled row becomes sent at its release time, the others stand; the count is exact |
| FanOut.SlotsMove | internal/service/send_orchestrator.go:1333-1423 | over any stretch of any interleaving, the slots that got a verdict are exactly those that stopped being pending or in flight, each once |
| FanOut.CountersMove | internal/service/send_orchestrator.go:1370-1420 | the counters and the failure list move by exactly the verdicts |
| FanOut.DispatchesAscend | internal/service/send_orchestrator.go:1348-1366 | each recipient is handed to the dispatcher at most once, in list order |
| FanOut.FanOutConserves | internal/service/send_orchestrator.go:1333-1423 | sent + failed + unknown is the recipient count, failures number failed + unknown, at most `concurrency` requests are open, for every interleaving and expiry point |
| FanOut.AllRejectedMeansNoneAccepted | internal/service/send_orchestrator.go:705-714 | the revert condition holds iff every verdict is a definitive rejection |
| FanOut.EventsCounted | internal/service/send_orchestrator.go:1345-1420 | counted from the events alone: accepted answers are sent, rejections and recipients never dispatched failed, the rest unknown |
| FanOut.FailuresListed | internal/service/send_orchestrator.go:1359-1416 | everyone not sent is listed, in the order it became known |
| FanOut.SkipsFollowExpiry | internal/service/send_orchestrator.go:1355-1362 | nobody is passed over before the job's context expires |
| FanOut.Workers | internal/service/send_orchestrator.go:231-303 | the worker count is positive: the configured one, or five if that is not positive |
| FanOut.Disabled | internal/service/send_orchestrator.go:1337-1343 | with the fan-out off everybody counts as sent and nobody as failed |
| FanOut.FanOutJob.Launch | internal/service/send_orchestrator.go:1355-1364 | one turn of the main loop is one dispatch or one recorded skip |
| FanOut.FanOutJob.Report | internal/service/send_orchestrator.go:1397-1420 | one mutex section counts one outcome |
| LifecycleMoves.RowMoves | internal/repository/postgres.go:349-685 | an event leaves a row alone, edits it or deletes it as a draft (editors), claims a draft (senders), or settles or reverts a sending or scheduled row (jobs, cancels, sweeps); nothing else |
| LifecycleInvariant.StepKeeps | internal/service/send_orchestrator.go:697-761 | every event of every actor, stale reverts included, keeps the invariant |
| LifecycleInvariant.Always | internal/service/send_orchestrator.go:697-839 | the invariant holds after every run |
| LifecycleHolders.DeadStays | internal/service/send_orchestrator.go:697-761 | no event of any actor revives a claim that was wholly rejected or whose batch was cancelled |
| LifecycleHolders.HeldOrDead | internal/service/send_orchestrator.go:697-839 | after every non-overlapping run each claim holds its row or is dead |
| LifecycleSafety.AtMostOnceDelivery | internal/service/send_orchestrator.go:697-761 | in every non-overlapping run each address is delivered a newsletter at most once |
| LifecycleSafety.GatedAtMostOnceDelivery | internal/repository/postgres.go:508-537 | with the revert gated on the version the same holds in every run |
| LifecycleRevert.LiveSendBehindADraft | internal/repository/postgres.go:504-507 | a draft behind which some claim can still deliver has a non-overlapping continuation that delivers twice |
| LifecycleRevert.RevertSafeIff | internal/repository/postgres.go:522 | after a wholly rejected job's revert every non-overlapping continuation delivers at most once iff the claim that holds the row is dead |
| LifecycleSafety.OnlyDeadSendsBehindADraft | internal/repository/postgres.go:504-507 | after every non-overlapping run each earlier send of a draft was wholly rejected or had its batch cancelled first |
| LifecycleSafety.SerialAtMostOnceDelivery | internal/service/send_orchestrator.go:573-587 | claiming no newsletter beside its own live job is enough for at-most-once delivery |
| LifecycleOverlap.OverlapDeliversTwice | internal/repository/postgres.go:522 | a run of the shipped code delivers one newsletter twice to one address |
| LifecycleOverlap.GuessedIfMatchRewritesASendingRow | internal/service/newsletter.go:281-302 | a run in which an update with a guessed version rewrites a sending row |
| LifecycleRows.RowInvariant | internal/repository/postgres_integration_test.go:687-759 | what draft, scheduled and sent imply about the other columns after every run, an armed send being sent only from its release on; after non-overlapping ones also that no earlier send of a draft can deliver |
| LifecycleRows.WritesRaiseTheVersion | internal/repository/postgres.go:377-486 | every committed write of every run raises the version of the row it changes by one and moves its status only draft to sending, sending to sent, scheduled or draft, scheduled to sent or draft |
| LifecycleRows.OnlyDraftsDisappear | internal/repository/postgres.go:291-334 | in every run only drafts are deleted, and a deleted id never returns |
| LifecycleRows.ClaimIsExclusive | internal/repository/postgres.go:377 | in every run, of all sends that read one version at most one claims |
| LifecycleRows.TerminalWriteIsOwn | internal/repository/postgres.go:452 | in every run a settling write changes a row only while its own claim holds it, and no other row; it leaves scheduled iff its claim is armed and has recipients, sent otherwise |
| LifecycleRows.CancelTouchesOnlyItsSend | internal/repository/postgres.go:573 | a cancel with an old batch never touches a newer send |
| LifecycleRows.ArmedRowsAreCancellable | internal/service/send_orchestrator.go:933-958 | an armed row always names the provider that can cancel it |
| LifecycleRows.EditRewritesTheDraftItRead | internal/service/newsletter.go:281-378 | in every run an edit that commits rewrites exactly the draft it read iff its If-Match is no larger than the version it read |
| LifecycleRows.RecoveryAgreesWithTheJob | internal/repository/postgres.go:627-685 | for every sending row of every run, its job alive or not: batch_id is set iff the claim that holds it armed a schedule, and the sweep leaves a stuck one scheduled iff it did, sent otherwise; that is the job's own settled status iff the claim has recipients or is not armed |
| LifecycleRows.SentIsAbsorbing | internal/repository/postgres.go:440-470 | a row sent at some point of a run is sent ever after with the same send columns |
| LifecycleRows.SentRowsAreFrozen | internal/service/newsletter.go:281-302 | in every run with honest edits a sent row never changes |
| LifecycleRequests.SendDoesWhatWasAsked | internal/service/send_orchestrator.go:400-420 | in every run a claim has the release time its send asked for, or the draft's saved one if it asked for none, no schedule if it wanted none, and its provider and recipients; the row it takes is the draft it read, and shows them |
| LifecycleRequests.EditStoresWhatWasSent | internal/service/newsletter.go:264-378 | in every run an update that commits leaves the content and release time its caller sent; one that does not leaves every row as it was |
| LifecycleRequests.CallKept | internal/service/send_orchestrator.go:373-420 | no event of anybody else changes a call under way |
| LifecycleRequests.ArmedInWindow | internal/service/send_orchestrator.go:875-886 | in every run a schedule is armed only at least the minimum lead and at most the horizon ahead |
| LifecycleRequests.CancelStartsInTime | internal/service/send_orchestrator.go:900-931 | a cancel starts only on an armed scheduled or sending row at the version named, no later than the buffer before its release, and goes on with that row's batch |
| LifecycleRequests.CancellationsStand | internal/service/send_orchestrator.go:955-961 | a confirmed cancellation of either kind is on record ever after |
| LifecycleOutcomes.CreateStoresWhatWasSent | internal/repository/postgres.go:46-54 | in every run a new newsletter is a version-1 draft with what its author sent, under an id no row had |
| LifecycleOutcomes.DeleteRemovesTheDraft | internal/service/newsletter.go:383-403 | deleting removes the row it read iff that is still a draft, and nothing else |
| LifecycleOutcomes.CancelUndoesTheSend | internal/service/send_orchestrator.go:955-975 | a cancel that goes through has the batch it read cancelled first and then makes the row a draft again, saved release time kept, iff the row still belongs to that send |
| LifecycleOutcomes.JobSettlesItsRow | internal/service/send_orchestrator.go:697-830 | a wholly rejected job leaves its row a draft and, if armed, goes on to cancel its batch; any other leaves it scheduled if armed for somebody, sent now if not; column by column |
| LifecycleOutcomes.LateJobChangesNothing | internal/repository/postgres.go:508-537 | a job that no longer holds its row changes nothing, except that the shipped revert of a wholly rejected one takes any sending row back to draft |
| LifecycleOutcomes.SweepsSettle | internal/repository/postgres.go:599-685 | what each of the three sweeps makes of each row |
| Timing.CheckConfig | cmd/newsletter-api/service/config.go:259-270 | the sweep age is raised to the configured timeout plus 300 seconds and no further; a horizon over 72 hours is refused |
| Timing.NewOrchestrator | internal/service/send_orchestrator.go:265-294 | lead and cancel buffer are the larger of the configured value and their floor (timeout plus 300 seconds, 600 seconds), timeout and horizon the configured value or their default (1800 seconds, 72 hours) |
| Timing.Configure | cmd/newsletter-api/service/config.go:259-270 | as wired, the lead always clears the job timeout by five minutes, and the sweep does iff the condition of SweepBehindJobIff holds |
| Timing.SweepBehindJobIff | cmd/newsletter-api/service/config.go:259-263 | the sweep stays five minutes behind the job iff the configured timeout is positive or the configured age is at least 35 minutes |
| LifecycleClock.JobLife | internal/service/send_orchestrator.go:613-704 | in every timely run a running job is no older than the limits of its stages add up to, so its last write comes before that |
| LifecycleClock.SweepSparesLiveJob | internal/service/send_orchestrator.go:697-704 | in every timely run no recovery sweep touches the row a live job holds |
| LifecycleClock.ArmedBeforeRelease | internal/service/send_orchestrator.go:875-886 | in every timely run each arming call of a scheduled send ends before its release time |
| Recipients.GatherMembers | internal/service/send_orchestrator.go:1239-1256 | the gathered lists do not depend on the order in which lookups finish |
| Recipients.ResolveRecipients | internal/service/send_orchestrator.go:1238-1293 | fails iff a lookup or the opt-out list fails; else returns the resolved list of the answers |
| Recipients.ResolvedIsExact | internal/service/send_orchestrator.go:1263-1284 | the list holds exactly the normalized addresses with an @ that have not opted out, each once, under the trimmed first name of the first member with that address |
| Recipients.ResolvedKeepsOrder | internal/service/send_orchestrator.go:1266-1284 | recipients stand in the order their addresses first occur among the members |
| Recipients.CommitteesInOrder | internal/service/send_orchestrator.go:1263-1266 | members stand committee by committee, each committee's in its own order |
| Pagination.ListSentByCommittee | internal/repository/postgres.go:165-210 | a page holds the next matching rows, twenty at most, in descending order, and a token iff there are more |
| Pagination.WalkIsStable | internal/repository/postgres.go:159-164 | following the tokens returns every row sent to the committee when the walk began exactly once, latest first and equal instants by larger id, twenty a page at most, while others become sent |
| Pagination.PagesShrink | internal/repository/postgres.go:195-207 | on a fixed table every page but the last removes twenty rows from what is left |
| Pagination.WalkEnds | internal/repository/postgres.go:195-207 | a walk over m rows takes at most m / 20 + 1 pages |
| Pagination.RunsEvolve | internal/repository/postgres.go:159-164 | between any two moments of any run with honest edits what is sent stays as it is |
| Pagination.WalkOverRunIsStable | internal/repository/postgres.go:159-210 | the same for a walk whose pages are read at any moments of any such run |
| Dispatcher.PostMailSend | internal/infrastructure/sendgrid/dispatcher.go:361-413 | definitive iff the answer is a 4xx; success iff 200 or 202 |
| Dispatcher.SendEmail | internal/infrastructure/sendgrid/dispatcher.go:246-338 | reported accepted implies accepted, reported rejected implies not; exactly which mail and answers give each; an accepted tracked mail is recorded sent, a rejected one failed, and nothing else is recorded |
| Dispatcher.CancelScheduledBatch | internal/infrastructure/sendgrid/dispatcher.go:458-496 | success exactly on 200, 201, 204 and the already-cancelled answer, and it implies the batch is cancelled |
| EngagementStore.SendGridEngagementStore.RecordSend | internal/repository/sendgrid_engagement.go:107-116 | inserts the row once; a tombstoned group is dropped |
| EngagementStore.SendGridEngagementStore.ApplyDelivered | internal/repository/sendgrid_engagement.go:169-178 | upserts, first delivery wins, tombstoned groups dropped |
| EngagementStore.SendGridEngagementStore.ApplyFailed | internal/repository/sendgrid_engagement.go:183-192 | upserts, first failure wins, tombstoned groups dropped |
| EngagementStore.SendGridEngagementStore.ApplyOpen | internal/repository/sendgrid_engagement.go:200-243 | a new event is stored and rolled up once; a duplicate or tombstoned one changes nothing |
| EngagementStore.SendGridEngagementStore.ApplyClick | internal/repository/sendgrid_engagement.go:250-289 | as for opens, keeping the url |
| EngagementStore.SendGridEngagementStore.RevertGroup | internal/repository/sendgrid_engagement.go:126-162 | tombstones the group and leaves it without rows or events |
| Engagement.ApplyKeepsConsistent | internal/repository/sendgrid_engagement.go:126-289 | every operation keeps the rollup in agreement with the events |
| Engagement.RollupAgreesWithEvents | internal/repository/sendgrid_engagement.go:200-289 | in every reachable state counts, flags and last instants equal those of the stored events, and every event has its row |
| Engagement.RevertedGroupStaysEmpty | internal/repository/sendgrid_engagement.go:117-162 | after a revert the group has no row and no event, whatever arrives later |
| Engagement.RunReflects | internal/repository/sendgrid_engagement.go:107-289 | the store is exactly what the set of applied operations says |
| Engagement.Converges | internal/repository/sendgrid_engagement.go:107-289 | runs that applied the same operations, in any order and number, look the same |
| EngagementInstants.FirstDecides | internal/repository/sendgrid_engagement.go:107-192 | in every run delivered_at and failed_at of a stored row are the instants of the first applied delivery and failure, sent_at that of the send if the send wrote the row first |
| EngagementInstants.InstantsStay | internal/repository/sendgrid_engagement.go:164-192 | once set they never change while the row stands |
| Webhook.ApplyEvent | internal/infrastructure/sendgrid/webhook.go:206-244 | one event is at most one operation, and what each kind leaves in the store; untracked or unkeyed events are skipped without error |
| Webhook.EventLeaves | internal/infrastructure/sendgrid/webhook.go:206-244 | per kind: a delivery shows as delivered, each of the four failures as failed, an open or a click once as a stored event and a flag; any other kind changes nothing |
| Webhook.ServeBatch | internal/infrastructure/sendgrid/webhook.go:184-201 | every event of the batch is attempted; 204 iff none failed; the reported error is the first |
| Webhook.HistoryApplied | internal/infrastructure/sendgrid/webhook.go:184-201 | what is applied was requested, and what was acknowledged is applied |
| Webhook.RedeliveryConverges | internal/infrastructure/sendgrid/webhook.go:138-149 | histories that ask for the same operations, redelivered until acknowledged, leave the same view |
| Webhook.FirstWinsDependsOnOrder | internal/repository/sendgrid_engagement.go:164-192 | of two deliveries, or two failures, the first to arrive decides the instant; a delivery before the send leaves sent_at empty |
| Reports.DailyOpensFromRecords | internal/domain/port/ports.go:462-503 | the loops compute the per-day series and last instant of the opens |
| Reports.GroupDetailFromRecords | internal/domain/port/ports.go:425-452 | unique opens, series, last instant and the distinct normalized failed addresses in the order they first occur |
| ReportRules.SeriesOfRecords | internal/domain/port/ports.go:454-503 | the series has, ascending, exactly the UTC days some record was opened on, each with the number of its opens and of the recipients behind them |
| ReportRules.LastOfRecords | internal/domain/port/ports.go:454-503 | the last instant is the latest open of all records, none if there is none |
| Reports.SeriesUnique | internal/domain/port/ports.go:495-502 | the opens determine the ascending series |
| Reports.DailySeriesRefines | internal/repository/sendgrid_engagement.go:470-498 | on a group's records, none over the cap, the in-memory series is the SQL series |
| Reports.FlagsRefine | internal/repository/sendgrid_engagement.go:445-601 | unique opens and failed addresses agree, capped or not |
| Reports.DailySumsToOpened | internal/repository/sendgrid_engagement.go:291-333 | the daily opens sum to the open total iff no recipient has more than 500 |
| Reports.LastOpenRefines | internal/repository/sendgrid_engagement.go:545-580 | the in-memory last instant is the SQL maximum over opens |
| Reports.LastEventAgreesIff | internal/repository/sendgrid_engagement.go:545-580 | both reports name the same last event iff no click is later than the group's last stored open |
| Styles.MergeStyleDecls | internal/service/render/declarative/mjml.go:883-911 | the order list and value map write out the layered declarations |
| Styles.MergeRightBiased | internal/service/render/declarative/mjml.go:881-882 | per property the override wins, else the base shows |
| Styles.MergeAssociative | internal/service/render/declarative/mjml.go:883-911 | layering is associative |
| Styles.MergeCanonical | internal/service/render/declarative/mjml.go:883-911 | a merge declares each property once and none empty |
| Styles.MergeKeepsOrder | internal/service/render/declarative/mjml.go:881-911 | a merge declares every property that either style sets, in the order in which they are first set |
| TranslationLaws.TranslationIsValid | internal/service/render/declarative/mjml.go:95-133 | the output nests legally iff no top-level spacing wrapper directly holds another |
| TranslationTexts.FlowTexts | internal/service/render/declarative/mjml.go:483-534 | column content keeps its text leaves in order, whatever is dissolved |
| TranslationTexts.TextsKept | internal/service/render/declarative/mjml.go:47-60 | where images, dividers and breaks are leaves and columns stand only among columns, the text leaves come out exactly, in document order |
| TranslationTexts.TableKeepsColumns | internal/service/render/declarative/mjml.go:378-400 | a table row keeps exactly the text of its columns: all of the row's iff there is none beside them |
| TranslationTexts.CardKeepsTexts | internal/service/render/declarative/mjml.go:342-371 | a card kept whole keeps all of its text, in order, iff no table row has text beside its columns |
| TranslationTexts.TextLostIff | internal/service/render/declarative/mjml.go:47-198 | every text leaf of a document comes out exactly once except those beside the columns of a card's table rows; none is lost iff there are none |
| TranslationTexts.TableDropsStragglers | internal/service/render/declarative/mjml.go:378-400 | a card whose only text stands beside its columns loses it |
| TranslationParts.LineAgrees | internal/service/render/declarative/mjml.go:700-750 | in a line of text every link, styled text and plain element keeps all its own attributes; buttons, images and dividers leave only their content |
| TranslationParts.ContentAgrees | internal/service/render/declarative/mjml.go:483-534 | column content is the reference's: maximal lines of text, elements with their own href and look, containers dissolved, the outermost link's href on images without one |
| TranslationParts.SplitAgrees | internal/service/render/declarative/mjml.go:170-298 | rows of columns become sections of their own, each property set by the innermost container around the row that sets it |
| TranslationParts.DocumentAgrees | internal/service/render/declarative/mjml.go:47-198 | every document is part by part the reference, which has no pending runs, merged styles or allowlist tables: what each element is, where it leads, which attributes it shows and no others |
| TranslationComponents.ComponentsKept | internal/service/render/declarative/mjml.go:785-810 | where buttons, images and dividers stand in layout only and columns only among columns, those of the email are those of the tree, each once, in document order, with the authored href, forwarded attributes and look |
| TranslationStream.WrittenDocument | internal/service/render/declarative/mjml.go:47-60 | the stream of writes closes everything it opens, innermost first, and read by itself says part by part what the reference says |
| CardShadows.CollectCardShadows | internal/service/render/declarative/mjml.go:75-91 | the walk returns the shadows of the authored cards in document order |
| CardShadows.CardsAreRoundedElements | internal/service/render/declarative/mjml.go:75-91 | the cards are the rounded sections and rows of the whole tree, in document order, each with its own shadow |
| CardShadows.SectionRounded | internal/service/render/declarative/mjml.go:138-198 | how many rounded sections a block-level Section or Row becomes |
| CardShadows.WholeCard | internal/service/render/declarative/mjml.go:158-168 | a non-empty card whose breakouts are all table-safe stays one section |
| CardShadows.WholeIff | internal/service/render/declarative/mjml.go:138-198 | a rounded Section or Row becomes exactly one section iff it has columns, or is not empty and holds no nested breakout, only table-safe ones, or nothing but one |
| CardShadows.CardsLineUp | internal/service/render/declarative/mjml.go:62-74 | if a radius sits only on block-level Sections and Rows whose authored content stays whole, the k-th rounded mj-section is the k-th authored card |
| CardShadows.CardsTagged | internal/service/render/declarative/mjml.go:62-91 | each rounded section shows the radius of the card it came from; numbered by those cards the sections read 0, 1, 2, ... up to the number of cards iff every card's authored content stays whole |
| CardShadows.CardsLineUpIff | internal/service/render/declarative/mjml.go:62-91 | the k-th rounded section came from the k-th authored card, for all k, iff every card stays whole; it then finds its own card's shadow |
| CardShadows.CardLinesUpIff | internal/service/render/declarative/mjml.go:138-198 | one block-level card lines up with its shadow iff its authored content stays whole |
| CardShadows.EmptyCard | internal/service/render/declarative/mjml.go:170-181 | a card without content is collected but not emitted |
| CardShadows.PollCardDoubles | internal/service/render/declarative/mjml.go:403-433 | a card ending in a row whose columns hold buttons becomes two rounded sections |
| Translator.PartitionColumns | internal/service/render/declarative/mjml.go:455-464 | columns and the rest, each in order |
| Translator.SplitBreakouts | internal/service/render/declarative/mjml.go:243-275 | the loop with its pending run computes the segments |
| Translator.CarryLinkHref | internal/service/render/declarative/mjml.go:544-569 | exactly the images below the link without an href of their own get it |
| Translator.LinkedFlow | internal/service/render/declarative/mjml.go:535-569 | rewriting the images equals remembering the outermost dissolved link |
| Translator.PushContainerStyle | internal/service/render/declarative/mjml.go:580-596 | exactly the Section and Row children get the container's style under their own |
| Translator.PushedFlow | internal/service/render/declarative/mjml.go:571-596 | that rewriting changes nothing that is emitted |
| Translator.Builder.WriteInline | internal/service/render/declarative/mjml.go:700-730 | appends the inline HTML of the nodes |
| Translator.Builder.WriteChildren | internal/service/render/declarative/mjml.go:483-534 | appends the column content, runs flushed where they end, containers dissolved |
| Translator.Builder.WriteSideBySide | internal/service/render/declarative/mjml.go:316-328 | appends one section with a column per Column and a trailing one for the rest |
| Translator.Builder.WriteBreakoutTable | internal/service/render/declarative/mjml.go:378-400 | appends one table row with a cell per column |
| Translator.Builder.WriteCardWithBreakout | internal/service/render/declarative/mjml.go:342-371 | appends the card as one section |
| Translator.Builder.WriteSection | internal/service/render/declarative/mjml.go:138-198 | appends the sections of a Section or Row, whichever of the three forms applies |
| Translator.Builder.WriteBlock | internal/service/render/declarative/mjml.go:95-133 | appends a top-level node's blocks |
| Translator.Translate | internal/service/render/declarative/mjml.go:47-60 | the document is the written-out translation of the roots |
| Postprocess.ReconcileCardBorders | internal/service/render/declarative/postprocess.go:52-157 | on a well-nested stream the pass equals the tree rewriting by nearest radius and k-th shadow |
| Postprocess.RunOnForest | internal/service/render/declarative/postprocess.go:52-157 | the same inside any context, leaving the stack as it found it |
| Postprocess.StackIsOpenAncestors | internal/service/render/declarative/postprocess.go:55-80 | at every position the stack lists exactly the open ancestors' radii |
| CardRules.StackIsOpenElements | internal/service/render/declarative/postprocess.go:55-156 | on every stream, balanced or not, the sparse stack of depths and radii lists the rounded ones of the elements then open |
| CardRules.TagsGain | internal/service/render/declarative/postprocess.go:98-135 | on every stream a start tag gains exactly: the innermost open radius if bordered and square, separate borders if a rounded table, and if it is the k-th rounded, borderless, auto-margined tag the k-th shadow and 24px below, each unless declared; nothing else changes |
| CardRules.CardShows | internal/service/render/declarative/postprocess.go:113-135 | the k-th such tag shows its own shadow or else the k-th, and its own bottom margin or else 24px; no other tag's shadow or bottom margin changes |
| Layout.WalkValue | internal/service/render/declarative/render.go:100-129 | the running item count, or a breach iff the limit is passed |
| Layout.WalkBlocks | internal/service/render/declarative/render.go:59-88 | the running counts, or a breach iff a limit is passed |
| Layout.CheckLayoutBounds | internal/service/render/declarative/render.go:46-91 | accepts exactly the layouts with at most 1000 blocks, depth 16 and 2000 items |
| Layout.DepthIsLongestChain | internal/service/render/declarative/render.go:59-88 | the depth checked is the length of the longest chain of nested blocks |
| Layout.CountsAreTotals | internal/service/render/declarative/render.go:59-129 | the counts checked are of all blocks in the tree and of all elements of all arrays in their content |
| Bind.LookupSlice | internal/service/render/declarative/bind.go:282-299 | the objects of the array at the path, others skipped |
| Bind.BindAll | internal/service/render/declarative/bind.go:101-111 | binds node by node, stopping at the first error |
| Bind.BindOne | internal/service/render/declarative/bind.go:115-203 | one template node with its directives, in the order the code handles them |
| Bind.BindChildren | internal/service/render/declarative/bind.go:134-167 | the child blocks with a fresh separator between consecutive ones |
| Bind.BindItems | internal/service/render/declarative/bind.go:176-194 | one clone per item, bound against the item |
| Bind.BindWrapper | internal/service/render/declarative/render.go:248-306 | the wrapper with the assembled body at its body slots; text, slots, richtext and repeaters go to the ordinary binder |
| BindRules.LookupFollows | internal/service/render/declarative/bind.go:302-315 | a path leads through objects, first member of a name, to one value; anything else on the way leads to null |
| BindRules.PassesMeans | internal/service/render/declarative/bind.go:332-364 | a bare test fails exactly on null, false, zero, an empty array and a blank string; a comparison compares the text at the path with the literal |
| BindRules.GuardsDecide | internal/service/render/declarative/bind.go:122-127 | without each= a node binds as if unguarded iff its if= holds and its unless= does not, and to nothing otherwise |
| BindRules.WrapperGuardsDecide | internal/service/render/declarative/render.go:273-306 | the same in a wrapper, where a repeated element is tested before it is repeated |
| BindRules.IfOrUnless | internal/service/render/declarative/bind.go:368-376 | of one element under if=t and under unless=t exactly one renders, as the unguarded element would, in a block and in a wrapper |
| BindRules.TextBinds | internal/service/render/declarative/bind.go:115-120 | literals stand as written, holes write the escaped text of their value, piece after piece |
| BindRules.RichTextBinds | internal/service/render/declarative/bind.go:169-174 | a rich text field is emitted unescaped |
| BindRules.EachFindsItems | internal/service/render/declarative/bind.go:176-194 | each= repeats over the objects of the array at its path, in order, and over nothing if there is no array |
| BindRules.EachRepeats | internal/service/render/declarative/bind.go:176-194 | one clone per item, in order, each bound against its item under its own guards |
| BindRules.EachRepeatsElementsOnly | internal/service/render/declarative/bind.go:122-194 | on a slot or rich text each= only suspends the guards |
| BindRules.SlotJoins | internal/service/render/declarative/bind.go:134-167 | a children slot joins the child blocks in order with the separator between consecutive ones and nowhere else |
| BindRules.SeparatorIsFirst | internal/service/render/declarative/bind.go:140-147 | the separator is the content of the slot's first separator element |
| BindRules.NodesInOrder | internal/service/render/declarative/bind.go:101-111 | nodes bind in order, each to its own part, and one failing node fails them all |
| BindRules.BlockRendersTemplate | internal/service/render/declarative/bind.go:80-91 | a block renders its own template against its own content and child blocks |
| BindRules.WrapperElementBinds | internal/service/render/declarative/render.go:273-306 | a wrapper's element keeps its tag and its children, bound with the body in reach; the rest binds as in a block without child blocks |
| BindRules.BodySlotTakesBody | internal/service/render/declarative/render.go:263-306 | a body slot takes the whole body and then its own children, whatever its guards say |
| BindRules.BlocksFail | internal/service/render/declarative/bind.go:80-91 | a layout fails to bind only over a block type it names that has no template; such a block at the top always fails it |
| BindLaws.BodyCopies | internal/service/render/declarative/render.go:263-306 | one whole body is added for every body slot reached, none under a repeater or a failing guard |
| BindLaws.NodesFit | internal/service/render/declarative/bind.go:80-203 | a template's own nodes are repeated at most once per content item |
| BindLaws.AcceptedLayoutsStaySmall | internal/service/render/declarative/render.go:19-47 | an accepted layout binds to at most T * (2 * blocks + items) nodes |
| BindLaws.TwoSlotsDouble | internal/service/render/declarative/bind.go:134-167 | with two slots in a template the expansion doubles at each level |
| Spacing.ExpandPxShorthand | internal/service/render/declarative/spacing.go:111-132 | one to four integer pixel tokens as four sides, anything else refused |
| Spacing.CollapsePxShorthand | internal/service/render/declarative/spacing.go:154-166 | writes the collapsed shorthand |
| Spacing.CombineSpacing | internal/service/render/declarative/spacing.go:86-105 | the one that is set verbatim, the sum of two pixel shorthands, else the padding |
| Spacing.ApplyBlockSpacing | internal/service/render/declarative/spacing.go:44-105 | a block whose two spacing keys are each missing, no string, blank or 0px is left exactly as it was; any other gets one wrapper with what it asks for, trimmed |
| Spacing.ShorthandMeans | internal/service/render/declarative/spacing.go:111-132 | one value is all sides, two vertical and horizontal, three top, horizontal, bottom, four clockwise from the top |
| Spacing.ExpandCollapse | internal/service/render/declarative/spacing.go:111-175 | expanding a collapsed quadruple gives it back |
| Spacing.CollapseIsShortest | internal/service/render/declarative/spacing.go:152-166 | no equivalent shorthand uses fewer values |
| Spacing.CombinedIsSum | internal/service/render/declarative/spacing.go:86-105 | two pixel shorthands combine to their component-wise sum iff no side overflows 64 bits |
| Spacing.AssembledIsValid | internal/service/render/declarative/spacing.go:44-56 | an assembled edition nests legally if no template spells the wrapper's tag |

## Left out

- HTTP handlers, JSON and NATS clients, authentication, logging, validators, share and page-view counters: plumbing or one-branch facts.
- The wire format, signatures and the signed timestamp of the webhook: foreign calls.
- Cutting a click url to 2048 bytes: the event carries the url as stored.
- Template text parsing, attribute substitution with its URL checks, HTML escaping and number formatting: parameters of the binder.
- The MJML compiler: the translator stops at the MJML document and the restoring pass takes any token stream.
- Class styles, hidden-node pruning and text-align propagation: the translator takes the tree they leave.
- Style strings whose declarations do not parse, and attributes other than style, href and the wrapper's padding: styles are declaration lists, other attributes pass through.
- The rule a divider's style is mapped to its attributes by, and the px unit given to a bare image width: the divider carries its style, the image its attributes.
- Two nodes sharing one pointer (a body slot used twice): trees are values, so a style rewritten in place is not seen elsewhere.
- The 64-bit width of versions and counters: unbounded integers.
- The click series and top links of the SQL report: the same aggregates over clicks.
- Purging a group's engagement after a revert or a cancel: best-effort calls, represented on the store's side by the revert operation.
- Draining and shutdown order: a job or a call may die at any step instead.
- LifecycleSafety.AtMostOnceDelivery: needs a non-overlapping run, because the shipped code breaks it otherwise (LifecycleOverlap.OverlapDeliversTwice).
- Pagination.WalkOverRunIsStable: needs honest edits, because an update that guesses the version of a sent row rewrites it.
- LifecycleClock.ArmedBeforeRelease: assumes timely runs in which two hand-offs and the grace add up to at most five minutes.
- LifecycleClock.SweepSparesLiveJob: assumes timely runs in which one hand-off, the grace and the last write's timeout do.
- TranslationComponents.ComponentsKept: asks for content that the translator does not dissolve inside text, links or components; `TranslationParts.DocumentAgrees` says what comes out of any tree.
- CardShadows.CardsLineUp: asks that a radius sits only on block-level Sections and Rows; a nested card is collected but dissolved.
- Pagination.ListSentByCommittee: the query's own ordering and limit are taken from SQL.
