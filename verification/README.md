# Encore: a verified model

Encore connects idols and fans: people sign up, administrators turn applicants into idols,
fans subscribe and chat one-to-many, and a landing page is measured. This project models the
parts of it where state, concurrency or arithmetic decide the outcome, and proves what holds
for every input, run or interleaving.

The model takes the form of the program. Services are methods on a `Session` object whose
fields are the tables, with commit and rollback; the tracker and the landing sessions are
objects updated in place; converters, counters and folds are loops. Each such method is proved
equal to a function of its inputs or of the old state, and the lemmas speak about those
functions. Rules that are expressions in the program (constraints, policies, date arithmetic)
are functions and predicates.

| modules | what they model |
|---|---|
| `Schema`, `Services`, `Constraints` | tables, constraints, policies; every request as a step on the tables; the constraints hold after any run |
| `DbSession`, `AdminService`, `ReportService`, `AuthService`, `SubscriptionService`, `Requests` | the services statement by statement, and the commit or rollback around them |
| `Answers`, `Histories`, `ReachableRows` | when each request succeeds and how it fails, every row told by the successful requests about it, the constraints column by column |
| `RoomFacts`, `ActiveIdols` | what holds of messages, reports, idol pages and lists after any run |
| `ApprovalRace` | approvals and rejections racing step by step under READ COMMITTED |
| `AdminRace`, `AdminRaceFacts` | the same together with suspensions, unsuspensions and resolutions of reports, step by step, over the rows they share |
| `SoloRuns` | a transaction that races with nobody is the serial request |
| `SuspensionRace`, `ReportRace`, `RaceSerial` | what those races do to the accounting of suspensions, to handled reports and to serializability |
| `Idols`, `Suspensions`, `Terms`, `Subscriptions` | what whole runs amount to |
| `Paging`, `PageTies` | paged lists, from one answer or from one query a page |
| `Visibility` | who sees which chat message, and noninterference between fans |
| `Calendar`, `KstRange`, `KeptRows` | proleptic Gregorian day arithmetic (section 21.4.1 of ECMA-262), Korean date ranges, and the rows they keep |
| `StableSorting`, `LandingSessions`, `SessionFacts`, `SessionList`, `SessionFields` | sessions folded from the raw event log |
| `Tally`, `Overviews`, `OverviewFacts`, `OverviewParts` | the landing overview and its percentages |
| `CaseConverter`, `JsonKeys`, `CaseInterceptor` | JSON key case conversion between client and backend |
| `Track`, `TrackerFacts` | de-duplication of landing events, and what the tracker sends and remembers |
| `Basics` | options, filters, maps and sums over sequences |

## What the proofs found

- A user for whom only one of the terms of service and the privacy policy was renewed can never
  re-agree: the request must carry both, and the row of the unchanged one violates the unique
  constraint (`Terms.CanReagreeIffBothNew`, `Terms.RenewedTosBlocks`).
- A committed re-agreement clears the stale list only when the user did not agree to another
  version of the same terms at that very instant (`Terms.ReagreeClearsExactly`,
  `Terms.SameInstantStaysStale`).
- Suspensions are not guarded like approvals: two admins can both suspend one user, so that a
  later unsuspension no longer balances them (`SuspensionRace.BothSuspensionsCommit`). A commit
  does what its own request would do on the tables of the moment exactly when it was not
  overtaken: the last change of the user that others committed since its read of the profile
  went the other way, or there was none, and no resolution of its report was committed since
  its read of the report. A race is a serial run of its committed requests, in commit order,
  exactly when no change was overtaken (`RaceSerial.SerialIffNoneOvertaken`), and the balance of
  suspensions survives exactly when as many suspensions as unsuspensions of the user were
  (`SuspensionRace.SerialBalanceIffOvertakenEven`).
- Nor are handled reports final: a handled report is written again exactly when a resolution
  that had read it waiting commits (`ReportRace.HandledChangesIffReaderCommits`). So a report can
  read as dismissed by one admin, with the note of another, whose resolution of it suspended the
  sender (`ReportRace.DismissedYetSuspended`).
- Lists are ordered by one instant without a tie-breaker, so paging can repeat and lose rows:
  exactly when two rows around the end of a page tie (`PageTies.PagesCoverIffNoTie`).
- The email step of the signup funnel can exceed the number of sessions: exactly when an
  `email_focus` row without an id exists and every session has such a row
  (`OverviewFacts.EmailStepOverflowsIffStray`, `OverviewFacts.StrayRowOverflows`).
- The key converters are inverse exactly on keys without `_` and without a leading capital, and
  on lower-case keys whose parts are non-empty and whose later parts start with a letter; a
  converted map drops an entry exactly when two sibling keys have the same image, and an
  echoed body comes back unchanged exactly when all its keys are canonical.
- Docstrings speak of status 400 for `ValidationError`; `core/errors.py` answers 422. The model
  keeps the error's kind and leaves the number out.
- `apps_handled_consistency` asks for `handled_by` on a withdrawn application too, so a
  withdrawal by the client has to fill it in; a NULL recipient passes the check on a
  `fan_to_idol` row, and only the insert policy demands it; the select policy also returns
  soft-deleted rows. The model follows the SQL.

## Model

| member | source | states |
|---|---|---|
| ApprovalRace.EveryInterleavingIsSerial | backend/app/features/admin/service.py:37-91 | any interleaving of any number of approvals and rejections, with requests of other kinds in one piece between their steps, leaves the tables of a serial run of the committed requests in commit order, and keeps every constraint; the other admin requests are taken apart as well in RaceSerial.SerialIffNoneOvertaken |
| ApprovalRace.AtMostOneWinner | backend/app/features/admin/service.py:44-65 | of all transactions on one application at most one commits, and the row carries that winner's verdict, admin, time and reason |
| ApprovalRace.DecisionIsFinal | backend/app/features/admin/service.py:111-139 | once an application is decided its row never changes again and every unfinished or later attempt ends in a conflict or is aborted |
| ApprovalRace.CommitIsSerial | backend/app/features/admin/service.py:49-91 | what a transaction commits from the row it read long ago is exactly the serial request on the tables of the moment, which succeeds |
| ApprovalRace.RollbackLetsAnotherWin | backend/app/features/admin/service.py:83-88 | an approval that loses its stage name leaves tables and status untouched, and a waiting rejection of the same application can then claim it and win |
| ApprovalRace.SomebodyCanMove | backend/app/features/admin/service.py:49-84 | no deadlock: while a transaction is unfinished, some unfinished transaction can take its next step |
| ApprovalRace.RaceKeepsIdols | backend/app/features/admin/service.py:26-91 | racing or not, idols, idol profiles and approved applications correspond one to one |
| ApprovalRace.ExecAppend | backend/app/features/admin/service.py:37-91 | an interleaving goes on from where it stands, one step at a time |
| SoloRuns.WaitsExactly | backend/app/features/admin/service.py:50-84 | a decision waits for another exactly when that one holds the application, profile, idol key or name it writes next |
| SoloRuns.UnrelatedNeverWait | backend/app/features/admin/service.py:50-84 | decisions on unrelated applications never wait for one another |
| SoloRuns.WaitsForOthers | backend/app/features/admin/service.py:50-84 | a decision waits exactly for some other one, never for itself |
| SoloRuns.BlocksExactly | backend/app/features/admin/service.py:50-84 | a request of another kind waits for a decision exactly when it writes a row the decision holds |
| SoloRuns.DecisionsAre | backend/app/features/admin/service.py:26-139 | the requests taken step by step there are approvals and rejections |
| AdminRaceFacts.DecisionAbortLetsGo | backend/app/core/db.py:52-54 | an aborted decision leaves no trace and holds nothing |
| SoloRuns.DecisionAlone | backend/app/features/admin/service.py:37-139 | the steps of an approval or rejection that meets nobody end as its request does: same tables, same error |
| AdminService.ApproveIdolApplication | backend/app/features/admin/service.py:26-91 | the statements of an approval amount to the approval step; every error leaves the tables as they were |
| AdminService.RejectIdolApplication | backend/app/features/admin/service.py:99-139 | the statements of a rejection amount to the rejection step; every error leaves the tables as they were |
| AdminService.SuspendUser | backend/app/features/admin/service.py:147-183 | suspends the target with time and reason, or fails for oneself, an unknown or an already suspended user without a write |
| AdminService.UnsuspendUser | backend/app/features/admin/service.py:191-221 | lifts a suspension and clears its columns, or fails without a write |
| DbSession.Session.UpdatePending | backend/app/features/admin/service.py:50-63 | the conditional UPDATE: row count 1 and the decided row when it is pending, 0 and no write otherwise |
| DbSession.Session.Rollback | backend/app/core/db.py:52-54 | all tables return to the committed ones |
| DbSession.Session.Commit | backend/app/core/db.py:50-51 | the tables of the session become the committed ones |
| Requests.Serve | backend/app/core/db.py:42-54 | a served request moves the committed tables by exactly its step or not at all, reports the step's error, and leaves no write behind |
| Histories.ApplicationTold | backend/app/features/auth/service.py:80-90 | after any run an application is what its filing and the one decision or withdrawal made of it: every column from the successful requests alone |
| Histories.ProfileTold | backend/app/features/admin/service.py:76-219 | a profile is what signup, approval, suspensions (with the reason given, or the note of the resolution, or the default text) and unsuspensions of its user made of it |
| Histories.IdolProfileTold | backend/app/features/admin/service.py:67-74 | an idol profile carries the name and text of the approved application from the approval on |
| Histories.SubscriptionTold | backend/app/features/subscription/service.py:60-124 | a subscription is what the calls of its fan about its idol made of it, instants included |
| Histories.MessageTold | backend/migrations/versions/0001_initial.py:543-595 | a message is what was sent, with the last text and the stamps of its edits and deletion |
| Histories.ReportTold | backend/app/features/report/service.py:54-121 | a report is what its filing and its resolution made of it |
| Histories.AgreementTold | backend/app/features/auth/service.py:92-111 | an agreement is there from the request that gave the consent on, under its instant |
| Answers.ApproveAnswers | backend/app/features/admin/service.py:37-88 | an approval is refused as not found, as a conflict or by a foreign key exactly on the stated rows, and succeeds otherwise |
| Answers.RejectAnswers | backend/app/features/admin/service.py:111-136 | the same for rejections |
| Answers.SuspendAnswers | backend/app/features/admin/service.py:160-168 | a suspension is refused exactly for oneself, an unknown user and a suspended one |
| Answers.UnsuspendAnswers | backend/app/features/admin/service.py:201-206 | an unsuspension is refused exactly for an unknown user and one who is not suspended |
| Answers.ResolveAnswers | backend/app/features/report/service.py:97-121 | the same for resolutions, with the checks of the nested suspension |
| Answers.CreateReportAnswers | backend/app/features/report/service.py:38-60 | the same for filing a report: unknown message, own message, reported already |
| Answers.SignupAnswers | backend/app/features/auth/service.py:55-144 | the same for signup: registered already, no stage name, a required term not agreed to or a version not in force, keys in use |
| Answers.ServedConsents | backend/app/features/auth/service.py:32-36 | a re-agreement is refused as invalid exactly unless both required terms are agreed to and every version is v1 |
| Answers.ReapplyAnswers | backend/migrations/versions/0001_initial.py:105-135 | a further application is refused exactly for an unregistered user, a key in use or a pending application of the user |
| Answers.WithdrawAnswers | backend/migrations/versions/0001_initial.py:477-479 | a withdrawal is refused exactly unless the application is the user's own and pending |
| Answers.SubscribeAnswers | backend/app/features/subscription/service.py:47-77 | the same for subscribing: oneself, no idol profile, not an active idol by role, status and deletion |
| Answers.UnsubscribeAnswers | backend/app/features/subscription/service.py:108-115 | an unsubscription is refused exactly when the pair has no row |
| Answers.SendAnswers | backend/migrations/versions/0001_initial.py:559-584 | the same for sending: who may send what kind where, in answer to what, with what body, and never twice under one client id |
| Answers.EditAnswers | backend/migrations/versions/0001_initial.py:586-591 | a message is edited by its author until deleted and by active admins, and by nobody else |
| ReachableRows.RunObeys | backend/migrations/versions/0001_initial.py:74-357 | the constraints on profiles, applications, reports and subscriptions, written out column by column, hold after any run |
| ReachableRows.MessageColumns | backend/migrations/versions/0001_initial.py:195-245 | what the constraints say of a message: body, kind, addressee, parent, keys |
| ReachableRows.OnePending | backend/migrations/versions/0001_initial.py:105-140 | one pending application a user |
| ReachableRows.IdolColumns | backend/migrations/versions/0001_initial.py:145-154 | idol profiles belong to users and applications, under unique names |
| ReachableRows.SubscriptionColumns | backend/migrations/versions/0001_initial.py:170-177 | subscriptions join two different users |
| ReachableRows.OneOfClientId | backend/migrations/versions/0001_initial.py:195-245 | one message a sender and client id |
| ReachableRows.OneReportEach | backend/migrations/versions/0001_initial.py:295 | one report a message and reporter |
| ReachableRows.AgreementColumns | backend/migrations/versions/0001_initial.py:350-356 | agreements belong to users |
| RoomFacts.RunKeepsRooms | backend/migrations/versions/0001_initial.py:559-584 | after any run every reply is by the idol of its room and answers a fan message to that idol, broadcasts are the idol's own, fan messages are addressed to the idol |
| RoomFacts.OtherParentRefused | backend/migrations/versions/0001_initial.py:566-574 | a reply to anything else is refused and changes nothing |
| RoomFacts.RunKeepsReporters | backend/app/features/report/service.py:41-42 | after any run nobody is on record as reporting an own message |
| RoomFacts.ViewTold | backend/migrations/versions/0001_initial.py:543-557 | a user sees a message exactly as author, active admin, current subscriber of the idol who wrote it or idol whom the fan wrote to |
| RoomFacts.StoppingHides | backend/migrations/versions/0001_initial.py:546-550 | right after a fan stops supporting an idol what the idol writes is out of sight |
| RoomFacts.SuspendedAdminSeesOwn | backend/migrations/versions/0001_initial.py:556 | an admin who is not active sees no fan message of others |
| Constraints.RunKeepsValid | backend/migrations/versions/0001_initial.py:74-357 | every CHECK, UNIQUE and FOREIGN KEY constraint of profiles, applications, idol profiles, subscriptions, messages, reports and agreements holds after any run of requests |
| Constraints.StepKeepsValid | backend/migrations/versions/0001_initial.py:74-357 | no single request of any service commits a row a constraint of these seven tables forbids |
| Constraints.ApproveCommitsIffConstraintsHold | backend/migrations/versions/0001_initial.py:145-154 | an approval of a pending application commits exactly when the applicant has no idol profile and the written tables satisfy the constraints, and fails with a conflict otherwise |
| Idols.ReachableIdols | backend/app/features/admin/service.py:49-91 | after any run from a state without idols: role idol exactly with an idol profile, profiles and approved applications one to one with equal users, unique stage names, one pending application a user |
| Idols.RunKeepsIdols | backend/app/features/auth/service.py:55-116 | that correspondence is kept by every run of signups, re-applications, withdrawals, decisions, suspensions and the rest |
| Suspensions.SuspensionsBalance | backend/app/features/admin/service.py:160-221 | over any run, successful suspensions of a user, direct or by resolution, minus unsuspensions equal the change of being suspended |
| Suspensions.SuspensionColumnsAgree | backend/app/features/admin/service.py:174-217 | suspended_at and suspend_reason are set exactly on suspended users after any run |
| Suspensions.FailedSuspensionLeavesReport | backend/app/features/report/service.py:97-122 | a suspending resolution succeeds exactly when the nested suspension can; otherwise the report stays pending and nothing changes |
| Suspensions.FewSuspendedReports | backend/app/features/report/service.py:103-121 | at most one report more than unsuspensions is resolved by suspending the same user |
| Suspensions.ReportsCounted | backend/app/features/report/service.py:115-121 | the handled reports on a user under an action grow by one for each successful resolution with it |
| Suspensions.WarnedCountTellsResolutions | backend/app/features/report/service.py:130-141 | the warning count is the number of successful resolutions as warned |
| RaceSerial.SerialIffNoneOvertaken | backend/app/features/admin/service.py:37-221 | in any interleaving of approvals, rejections, suspensions, unsuspensions and resolutions, step by step, with what users do in between, the requests that went through are in commit order a serial run in which each succeeds exactly when no change was overtaken, and then the tables are those of that run |
| RaceSerial.CommitIsSerialIffNotOvertaken | backend/app/features/report/service.py:97-121 | a committing suspension, unsuspension or resolution would succeed if served at once exactly when, by the order of reads and commits, it was not overtaken, and then does just what it commits |
| AdminRaceFacts.RaceKeepsValid | backend/migrations/versions/0001_initial.py:74-357 | every constraint of the seven tables holds in every interleaving of admin requests, overtaken or not |
| AdminRaceFacts.RaceKeepsIdols | backend/app/features/admin/service.py:49-91 | roles, idol profiles and approved applications correspond in every interleaving with suspensions, which write the same profile rows |
| AdminRaceFacts.RaceKeepsColumns | backend/app/features/admin/service.py:174-217 | suspended_at and suspend_reason agree with the status in every interleaving |
| AdminRaceFacts.OneWinner | backend/app/features/admin/service.py:44-65 | at most one decision on an application commits, whatever suspensions and resolutions race with it |
| AdminRaceFacts.DecidedStaysDecided | backend/app/features/admin/service.py:111-139 | nor do they reopen a decided application or let another attempt on it win |
| AdminRaceFacts.HeldRowStays | backend/app/features/admin/service.py:76-81 | no other request writes the profile row an approval has updated and not committed |
| AdminRaceFacts.SomebodyCanMove | backend/app/features/report/service.py:103-121 | no deadlock between the two kinds: some unfinished transaction can always take its next step |
| AdminRaceFacts.AbortLetsGo | backend/app/core/db.py:52-54 | an aborted change leaves no trace and holds nothing |
| AdminRaceFacts.UsersPass | backend/app/features/report/service.py:31-62 | what users do passes between the steps; approvals, rejections, suspensions, unsuspensions and resolutions do not |
| SoloRuns.ChangeAlone | backend/app/features/report/service.py:97-122 | the steps of a suspension, unsuspension or resolution that meets nobody commit exactly when its request succeeds, with its tables |
| SuspensionRace.RepeatsIffOvertaken | backend/app/features/admin/service.py:163-181 | a commit finds the status it is about to set exactly when the last change of the user that others committed since its read set that status |
| SuspensionRace.SerialBalanceIffOvertakenEven | backend/app/features/admin/service.py:160-221 | the balance of serial runs survives a race exactly when as many committed suspensions as unsuspensions of the user were overtaken |
| SuspensionRace.BothSuspensionsCommit | backend/app/features/admin/service.py:163-181 | for any user who is not suspended and any two admins both suspensions can commit, the second overtaken and leaving its own reason and time |
| SuspensionRace.LockedReadsBalance | backend/app/features/admin/service.py:163-205 | in interleavings where nobody reads the profile while another is past the check of the same user, no change is overtaken and the serial balance holds |
| ReportRace.HandledChangesIffReaderCommits | backend/app/features/report/service.py:97-120 | a handled report keeps its row unless a resolution that had read it waiting commits, and then says what the last such one says |
| ReportRace.ReportTellsLastResolver | backend/app/features/report/service.py:115-120 | in any interleaving a report is as it was or carries action, handler and time of the last committed resolution |
| ReportRace.OneTimelyResolution | backend/app/features/report/service.py:100-121 | all committed resolutions of a report but the one that handles it came after another one committed since their read |
| ReportRace.DismissedYetSuspended | backend/app/features/report/service.py:103-119 | any waiting report of a user who is not suspended can end up dismissed, with the note of the resolution that suspended its sender |
| ReportService.FileReport | backend/app/features/report/service.py:31-62 | files a waiting report, or fails for an unknown message, an own message or a repeated report without a write |
| ReportService.Resolve | backend/app/features/report/service.py:90-122 | the nested suspension and the handled row together amount to the resolution step, with its errors |
| AuthService.CreateSignup | backend/app/features/auth/service.py:44-121 | profile, optional application and agreements amount to the signup step, with its errors |
| AuthService.ValidateAgreements | backend/app/features/auth/service.py:124-144 | accepts exactly agreed terms of service and privacy policy with every given version in force |
| AuthService.CollectRows | backend/app/features/auth/service.py:220-238 | the rows added are terms of service, privacy policy and, when agreed to, marketing |
| AuthService.AgreeAgain | backend/app/features/auth/service.py:207-239 | inserts exactly the requested rows or none |
| Terms.GetStaleAgreementTypes | backend/app/features/auth/service.py:170-199 | for any history a required type is reported exactly unless its first row says the version in force, marketing exactly when its first row says another, in this order and once each |
| Terms.FirstVersionIsLatest | backend/app/features/auth/service.py:181-185 | the first row per type of any ordered history is a latest agreement of that type, and missing exactly when there is none |
| Terms.FreshSignupNotStale | backend/app/features/auth/service.py:92-116 | right after a committed signup nothing has to be agreed to again |
| Terms.ReagreeCommitsIffNew | backend/migrations/versions/0001_initial.py:356 | a re-agreement commits exactly when it is valid and none of its rows exists; it only appends, and a failure changes nothing |
| Terms.ReagreeClearsExactly | backend/app/features/auth/service.py:207-239 | after a committed re-agreement a renewed type is up to date, however ties are ordered, exactly when no other version of it was agreed to at the same instant |
| Terms.SameInstantStaysStale | backend/app/features/auth/service.py:179 | a user who renews at the very instant of the old agreements commits and may still be stale |
| Terms.CanReagreeIffBothNew | backend/app/features/auth/service.py:218-239 | some re-agreement commits exactly when neither required version in force is in the history |
| Terms.RenewedTosBlocks | backend/app/features/auth/service.py:32-36 | a user with both first versions who must accept new terms of service is stale, and no request commits |
| SubscriptionService.StartSupport | backend/app/features/subscription/service.py:36-90 | insert, keep or restore the one row of the pair, or fail for oneself or an inactive idol |
| SubscriptionService.StopSupport | backend/app/features/subscription/service.py:98-124 | mark the row as ended once, or fail when there is none |
| Subscriptions.RowTellsLastChoice | backend/app/features/subscription/service.py:132-141 | after any run a row exists exactly when some subscription succeeded, and is active exactly when the last successful call was subscribe |
| Subscriptions.DetailTellsCalls | backend/app/features/idol_discovery/service.py:81-131 | an idol page exists exactly for active idols and shows the fan count and viewer flag computed from the calls alone; an idol is never among their own fans |
| Subscriptions.SubscriptionTimes | backend/app/features/subscription/service.py:68-124 | under a nondecreasing clock subscribed_at is at most last_read_at and at most any unsubscribed_at |
| Subscriptions.SubscribedAtNeverChanges | backend/app/features/subscription/service.py:81-90 | a row, once there, stays for ever under its first subscribed_at |
| Paging.PagesCoverList | backend/app/features/idol_discovery/service.py:59-73 | reading pages until has_more is false gives exactly the list, after max(1, ceil(N/size)) pages |
| Paging.GroupsIsCeiling | backend/app/features/idol_discovery/service.py:59-65 | the number of pages is the least that holds all items, and at least one |
| ActiveIdols.PageSaysWhich | backend/app/features/report/service.py:84-87 | a page carries its own number and size |
| Paging.IdolPagesComplete | backend/app/features/idol_discovery/service.py:41-73 | paging through one answer of the query shows every matching active idol once, newest activation first |
| Paging.ReportPagesComplete | backend/app/features/report/service.py:70-87 | paging through one answer of the query shows every pending report once, oldest first |
| ActiveIdols.SightIffActive | backend/app/features/idol_discovery/service.py:27-126 | a user has a page, is in the lists under a matching name and can be subscribed to exactly with an idol profile, role idol, status active and no deletion |
| ActiveIdols.SuspensionHides | backend/app/features/admin/service.py:170-181 | right after a suspension, direct or by resolution, an idol has no page, is in no list and nobody can subscribe |
| ActiveIdols.UnsuspensionShows | backend/app/features/admin/service.py:208-219 | right after it is lifted all three are back |
| ActiveIdols.QueueMoves | backend/app/features/report/service.py:77-83 | a report is in the queue right after it is filed and not after it is resolved |
| PageTies.PagesCoverIffNoTie | backend/app/features/idol_discovery/service.py:48-65 | when each page is a query of its own that may order ties anew, reading all pages shows every row exactly once whatever the orders, if and only if no two rows around the end of a page tie |
| PageTies.IdolPagesIffNoTie | backend/app/features/idol_discovery/service.py:41-73 | the same for idols and activation instants; the reorderings considered are exactly the answers the query may give |
| PageTies.ReportPagesIffNoTie | backend/app/features/report/service.py:76-87 | the same for pending reports and creation instants |
| Visibility.OtherFansAreInvisible | backend/migrations/versions/0001_initial.py:543-588 | two runs that differ only in what other fans write give a user without the admin role the same visible rows at every step |
| Visibility.AnswersTellNothing | backend/migrations/versions/0001_initial.py:543-588 | nor do the answers to that user's own requests differ: the same error, or success with the same tables outside messages and the same visible messages |
| Visibility.SameRequestAgrees | backend/migrations/versions/0001_initial.py:543-588 | one request on two databases the user cannot tell apart succeeds or fails alike and keeps them so |
| Visibility.HiddenRequestsKeepView | backend/migrations/versions/0001_initial.py:577-588 | a message of another fan to another idol, or an edit or deletion of one, never changes the view |
| Visibility.FanMessageStaysPrivate | backend/migrations/versions/0001_initial.py:543-584 | a sent fan message comes from a current subscriber and is visible to its sender, the idol and admins alone |
| Visibility.IdolMessageFansOut | backend/migrations/versions/0001_initial.py:543-575 | one inserted row of an active idol is at once visible to exactly the idol, the current subscribers and admins |
| Calendar.DateOfDayNumber | web/app/admin/_lib/range.ts:21-26 | every date of the years 0000 to 9999 is recovered from its day number |
| Calendar.DateOfDay | web/app/admin/_lib/range.ts:21-26 | every day number of those years is that of a real date |
| Calendar.DateOrder | web/app/admin/_lib/range.ts:44 | calendar order is day order |
| Calendar.NextDayNumber | web/app/admin/_lib/range.ts:24-29 | the date after a date, across month ends and leap years, has the next day number |
| KstRange.KstDateStrIsIsoPrefix | web/app/admin/_lib/range.ts:21-23 | the first ten characters of the shifted ISO text are the Korean date |
| KstRange.DayStartRoundTrip | web/app/admin/_lib/range.ts:21-26 | the Korean date of the first instant of a date is that date |
| KstRange.InstantInsideItsDay | web/app/admin/_lib/range.ts:21-29 | every instant lies between the start and end of its Korean date, which is 86400000 ms long |
| KstRange.TextOrderIsTimeOrder | web/app/admin/_lib/range.ts:44 | order of date texts is order of instants |
| KstRange.DaysAreAdjacent | web/app/admin/_lib/range.ts:24-29 | the end of a day plus one millisecond is the start of the next date |
| KstRange.PresetWindow | web/app/admin/_lib/range.ts:41-81 | without a well-formed date a preset contains now and spans exactly 1, 7 or 30 days up to the end of today |
| KstRange.PresetsNested | web/app/admin/_lib/range.ts:71-81 | the three presets end together and contain one another |
| KstRange.CustomWindow | web/app/admin/_lib/range.ts:41-53 | two real dates in either order resolve to the same non-empty window |
| KstRange.OneDateMeansToday | web/app/admin/_lib/range.ts:41-44 | with one given date the other end is today, in whichever order |
| KstRange.KeepsInside | web/app/admin/_lib/range.ts:84-92 | for any two date texts a row is kept exactly when its stamp parses and lies between the ends, both included; assuming that Date.parse gives NaN for a day that does not exist, as the format of ECMA-262 has it though engines may roll over, such an end bounds nothing |
| KstRange.PresetKeepsDays | web/app/admin/_lib/range.ts:71-92 | a preset keeps exactly the rows stamped on the last 1, 7 or 30 Korean days |
| KstRange.UnreadablePassIffAll | web/app/admin/_lib/range.ts:41-98 | rows without a readable stamp pass exactly when no well-formed date is given and the range names no preset; then the data come back unchanged |
| KstRange.DateShape | web/app/admin/_lib/range.ts:31-33 | a date is four digits, a dash, two digits, a dash and two digits |
| KstRange.MalformedIgnored | web/app/admin/_lib/range.ts:41-53 | a malformed date counts as none |
| KstRange.TimeReads | web/app/admin/_lib/range.ts:21-23 | the time of day in the ISO text reads back as the instant within its day |
| KeptRows.CustomKeepsRows | web/app/admin/_lib/range.ts:41-98 | two real dates, in either order, keep of events and signups exactly the rows stamped on a Korean day between them, every copy and in order |
| KeptRows.PresetKeepsRows | web/app/admin/_lib/range.ts:71-98 | today, 7d and 30d keep exactly the rows of the last 1, 7 or 30 Korean days, every copy and in order |
| KeptRows.ResolvedTexts | web/app/admin/_lib/range.ts:41-81 | a range is named and shows its first day and today by what the parameter says, and is custom exactly with a well-formed date |
| KstRange.AdjacentRangesPartition | web/app/admin/_lib/range.ts:84-98 | filtering by two adjacent ranges splits the rows of the combined range, none lost or counted twice |
| LandingSessions.BuildSessions | web/app/admin/_lib/analytics.ts:175-274 | the loops over objects in a Map, updated and sorted in place, compute the fold of each id's rows, finished and sorted newest first, with stamps collated as texts |
| LandingSessions.MatchSignups | web/app/admin/_lib/analytics.ts:179-184 | each session gets the last signup row that carries its id |
| LandingSessions.GroupRows | web/app/admin/_lib/analytics.ts:186-250 | after the loop each id, in order of first appearance, holds the fold of exactly its rows |
| LandingSessions.SessionObject.Finish | web/app/admin/_lib/analytics.ts:252-271 | the second pass over one session |
| SessionList.IdsExactlyOnce | web/app/admin/_lib/analytics.ts:187-218 | the session ids are exactly the distinct non-empty ids of the rows, each once |
| SessionList.SessionDescribesItsRows | web/app/admin/_lib/analytics.ts:220-259 | each session has rows; its counts and clicks are theirs, its timeline a sorted permutation of them, its first and last stamp their least and greatest, its scroll their maximum |
| SessionList.SessionSections | web/app/admin/_lib/analytics.ts:231-264 | its sections are those its rows viewed, each once, in page order |
| SessionList.SessionsNewestFirst | web/app/admin/_lib/analytics.ts:273 | sessions come out newest first |
| SessionList.SessionsConserveRows | web/app/admin/_lib/analytics.ts:220-239 | event counts, page views and clicks of all sessions add up to those rows of the log that carry an id |
| SessionFields.SessionsTellFields | web/app/admin/_lib/analytics.ts:226-271 | source, referrer, role, duration, last event and signup of every session, told by the first, last, longest and latest of its raw rows |
| SessionFields.SectionsOnPage | web/app/admin/_lib/analytics.ts:260-264 | sections are kept in the order of the page, unlisted ones first |
| SessionFields.ScrollDepths | web/app/admin/_lib/analytics.ts:235 | the depth of a scroll row is its percentage, else the number of its label, else 0 |
| SessionFacts.LogOrderIrrelevant | web/app/admin/_lib/analytics.ts:187-271 | permuting the log changes no session's counts, stamps, maxima, duration, attempt flag, set of sections or multisets of clicks and timeline items |
| SessionFacts.FoldedStamps | web/app/admin/_lib/analytics.ts:221-222 | firstTs and lastTs are the least and greatest non-empty stamps, empty only when all are |
| SessionFacts.FoldedMaxima | web/app/admin/_lib/analytics.ts:234-248 | scroll and reported duration are the maxima of their rows |
| Overviews.BuildOverview | web/app/admin/_lib/analytics.ts:276-357 | the counter loops and expressions compute every part of the overview from the log and the sessions |
| Overviews.CountClicks | web/app/admin/_lib/analytics.ts:294-299 | the counter holds each label's number of clicks, keys in order of first appearance |
| Overviews.CountSources | web/app/admin/_lib/analytics.ts:323-324 | the same for the sources of the sessions |
| Overviews.CountRoles | web/app/admin/_lib/analytics.ts:330-338 | the three role counts are those of the rows and add up to their number |
| OverviewFacts.BarsCountIds | web/app/admin/_lib/analytics.ts:281-291 | each section counts the distinct ids that viewed it and each depth the distinct ids that scrolled to it, by the raw log |
| OverviewFacts.StepsCountIds | web/app/admin/_lib/analytics.ts:306-311 | the finale and attempt steps count distinct ids of the raw log |
| OverviewFacts.SignupStepCountsIds | web/app/admin/_lib/analytics.ts:311 | the signup step counts the distinct ids that occur both in the log and in the signup rows |
| OverviewParts.RoleStepCountsIds | web/app/admin/_lib/analytics.ts:310 | the role step counts the ids whose last choice of a role names one |
| OverviewParts.TotalsTold | web/app/admin/_lib/analytics.ts:329-348 | totals, character interactions and the three roles are those of the raw rows, and the roles add up |
| OverviewParts.SectionBars | web/app/admin/_lib/analytics.ts:282-285 | the seven sections come in page order, each with the rounded percentage of its count |
| OverviewParts.DepthBars | web/app/admin/_lib/analytics.ts:288-291 | the depths 25, 50, 75 and 100 in order, with the percentages of their counts |
| OverviewParts.StageBars | web/app/admin/_lib/analytics.ts:313-320 | the six steps of the funnel in order, with the percentages of their counts |
| OverviewParts.EmailStepCountsIds | web/app/admin/_lib/analytics.ts:307-309 | the email step counts the distinct ids of the focus rows, a missing one included |
| OverviewFacts.ScrollNeverIncreases | web/app/admin/_lib/analytics.ts:287-291 | scroll counts and percentages never increase from 25 to 100 |
| OverviewFacts.FunnelWithinTotal | web/app/admin/_lib/analytics.ts:305-320 | every funnel step but the email step is at most the number of sessions |
| OverviewFacts.EmailStepOverflowsIffStray | web/app/admin/_lib/analytics.ts:307-309 | the email step exceeds the number of sessions exactly when a row without an id focused the field and so did every session |
| OverviewFacts.StrayRowOverflows | web/app/admin/_lib/analytics.ts:307-309 | two such rows are enough |
| OverviewFacts.ClicksConserved | web/app/admin/_lib/analytics.ts:294-300 | clicks of all sessions plus clicks without an id are ctaTotal |
| OverviewFacts.LabelsConserved | web/app/admin/_lib/analytics.ts:300-303 | the label counts add up to ctaTotal |
| OverviewFacts.SourcesConserved | web/app/admin/_lib/analytics.ts:323-327 | the source counts add up to the number of sessions |
| OverviewFacts.ClickPercentages | web/app/admin/_lib/analytics.ts:300-303 | with k labels and a click the rounded percentages sum to more than 100 - k/2 and at most 100 + k/2 |
| OverviewFacts.SourcePercentages | web/app/admin/_lib/analytics.ts:323-327 | the same for k sources and a session |
| OverviewFacts.FunnelsIgnoreOrder | web/app/admin/_lib/analytics.ts:282-291 | permuting the log leaves the section funnel and the scroll distribution unchanged |
| Tally.PctNearest | web/app/admin/_lib/analytics.ts:171-173 | pct is within half a point of the exact percentage, and half a point off only upwards |
| Tally.PctMonotone | web/app/admin/_lib/analytics.ts:171-173 | pct never falls when the count grows |
| Tally.PctWithin | web/app/admin/_lib/analytics.ts:171-173 | the percentage of a part lies between 0 and 100, and that of the whole is 100 |
| Tally.BarsRanked | web/app/admin/_lib/analytics.ts:301-303 | bars come by falling count, equal counts in order of first appearance |
| Tally.Total | web/app/admin/_lib/analytics.ts:300 | the counters add up to the number of things counted |
| CaseConverter.CamelToSnake | mobile/lib/core/api/case_converter.dart:12-22 | the index loop computes the snake form character by character |
| CaseConverter.SnakeToCamel | mobile/lib/core/api/case_converter.dart:26-38 | splitting at underscores and joining raised parts computes the camel form character by character |
| CaseConverter.Letters | mobile/lib/core/api/case_converter.dart:12-38 | capitals and small letters are those of the alphabet and correspond one to one |
| CaseConverter.CamelRoundTrip | mobile/lib/core/api/case_converter.dart:12-38 | camel to snake and back is the identity exactly on keys without underscore and leading capital |
| CaseConverter.SnakeRoundTrip | mobile/lib/core/api/case_converter.dart:12-38 | snake to camel and back is the identity exactly on lower-case keys of non-empty parts whose later parts start with a letter |
| CaseConverter.ConvertersIdempotent | mobile/lib/core/api/case_converter.dart:3-4 | both converters leave their own output alone, on every string |
| CaseConverter.ConvertersInjective | mobile/lib/core/api/case_converter.dart:12-38 | different camel keys never meet on the wire, nor different snake keys on the client |
| JsonKeys.ConvertKeys | mobile/lib/core/api/case_converter.dart:42-55 | filling the output map entry by entry, at every level, computes the converted tree |
| JsonKeys.ConvertedKeys | mobile/lib/core/api/case_converter.dart:43-49 | the keys of a converted map are the distinct images in order of first appearance |
| JsonKeys.EntryLostIffCollision | mobile/lib/core/api/case_converter.dart:43-49 | a map keeps its size exactly when no two sibling keys have the same image |
| JsonKeys.CollidingSiblings | mobile/lib/core/api/case_converter.dart:43-49 | the siblings uA and u_a become one entry with the second value |
| JsonKeys.CollisionKeepsLast | mobile/lib/core/api/case_converter.dart:45-48 | under a shared image the value written last survives |
| JsonKeys.ShapeKeptIffNoCollision | mobile/lib/core/api/case_converter.dart:42-55 | list lengths, leaves and map sizes of the whole tree are kept exactly when no siblings collide anywhere |
| JsonKeys.TreeRoundTrip | mobile/lib/core/api/case_converter.dart:42-55 | a tree, with distinct keys in each map, survives both conversions unchanged exactly when all its keys are canonical camel keys |
| CaseInterceptor.OnRequest | mobile/lib/core/api/case_interceptor.dart:23-65 | body and query go out converted exactly when not opted out and the content type, else the header, is absent or contains application/json in any case; otherwise as given |
| CaseInterceptor.SendDefault | mobile/lib/core/api/dio_client.dart:40 | under the default header canonical bodies and queries reach the backend with backend keys only |
| CaseInterceptor.OnResponse | mobile/lib/core/api/case_interceptor.dart:43-53 | a map or list comes back converted unless opted out |
| CaseInterceptor.EchoedBodyUnchanged | mobile/lib/core/api/case_interceptor.dart:23-53 | a body of canonical camel keys echoed by the backend returns unchanged, whatever the flag and content type; when both ends convert, no other body does |
| CaseInterceptor.BackendTreeRoundTrip | mobile/lib/core/api/case_converter.dart:42-55 | a tree of backend keys, distinct in each map, survives conversion for the client and back |
| CaseInterceptor.Echo | mobile/lib/core/api/case_interceptor.dart:23-53 | the same through the two calls on request and response objects |
| Track.Tracker.EnsureSession | web/app/_lib/track.ts:22-40 | the session id is kept, taken from storage or created, with its start |
| Track.Tracker.MarkPageLoad | web/app/_lib/track.ts:46-50 | page load and session start are set once |
| Track.Tracker.ShouldEmit | web/app/_lib/track.ts:66-75 | answers by the window of the key and records exactly the emissions |
| Track.Tracker.Track | web/app/_lib/track.ts:98-111 | one call's requests and memory, nothing on excluded paths |
| Track.Tracker.FireSessionEnd | web/app/_lib/track.ts:116-127 | one end report with its properties, at most one a second |
| Track.KeyIdentifies | web/app/_lib/track.ts:69 | equal cache keys mean equal windowed events and labels, so streams do not affect each other |
| Track.GateIsPerStream | web/app/_lib/track.ts:66-75 | in any run the requests of an event and label are the greedy choice among its own offers, and the cache holds the last of them |
| Track.GateSendsMost | web/app/_lib/track.ts:66-111 | they are at least the window apart, and under a nondecreasing clock no separated choice of the offers is larger |
| Track.SuppressedIffCovered | web/app/_lib/track.ts:66-111 | in any run and under any clock the next call of a windowed event is suppressed exactly when its stream has a request sent less than a window before |
| Track.SessionEndsSpaced | web/app/_lib/track.ts:114-127 | end reports of the listeners are at least a second apart |
| TrackerFacts.TrackTells | web/app/_lib/track.ts:98-111 | what a call does, from the literal windows, the page and what is remembered: nothing off public pages, a request unless it repeats |
| TrackerFacts.OthersAlwaysSent | web/app/_lib/track.ts:66-68 | an event without a window is always sent from a public page |
| TrackerFacts.EndsNoticed | web/app/_lib/track.ts:114-120 | the guard remembers when leaving was last noticed, a second or more after the time before |
| TrackerFacts.IdWithoutBrowser | web/app/_lib/track.ts:22-24 | outside a browser the id is the one held, if any |
| TrackerFacts.EndReports | web/app/_lib/track.ts:116-127 | leaving sends one report of the run: time since the session began, event and age of the last request sent |
| TrackerFacts.RunIsOneSession | web/app/_lib/track.ts:22-40 | all requests of a run carry one session id |
| TrackerFacts.LoadedOnce | web/app/_lib/track.ts:46-54 | elapsed times count from the first page load of the run |

## Left out

- Constraints.RunKeepsValid: does not cover message_reads, device_tokens and notification_prefs, whose rows no modelled request writes.
- Constraints.StepKeepsValid: leaves the same three tables out.
- ApprovalRace.EveryInterleavingIsSerial: interleaves the statements of approvals and rejections; RaceSerial.SerialIffNoneOvertaken interleaves those of all admin requests. Signups, applications, filed reports, subscriptions and messages run in one piece in both.
- Paging.IdolPagesComplete: speaks of one answer; separate answers are the matter of PageTies.IdolPagesIffNoTie.
- Paging.ReportPagesComplete: speaks of one answer; separate answers are the matter of PageTies.ReportPagesIffNoTie.
- KstRange.KeepsInside: takes Date.parse of a day that does not exist as NaN; an engine that rolls over to the next month bounds the range there.
- LandingSessions.BuildSessions: orders stamps as texts where the program collates by locale; the line describing a row is taken from the row as computed.
- Overviews.BuildOverview: bars carry no label text, which is looked up by key in a fixed dictionary.
- HTTP routing, schemas and their length checks, tokens, pushes, sheets and other input and output: authenticated ids and validated inputs are given.
- Screens of all three clients, label texts, descriptions and formatting helpers, and the label and query fields of a range.
- Columns nothing modelled depends on: updated_at, avatars, thumbnails, the generated key of an agreement (kept by user, type and version).
- The ORM is taken to write the columns of a report that differ from those it read, as SQLAlchemy does; profiles and reports are never deleted.
- Generated keys are parameters; one that is already in use is a constraint violation.
- One clock per request; the skew between database and application clocks is not modelled.
- Direct client writes other than applying again, withdrawing, sending and editing messages; a withdrawal records the applicant as handler, and created_at is not chosen by the client.
- message_reads, device tokens, notification preferences, character state, realtime channels and polling.
- Lock waits are modelled as steps that are not enabled; deadlock detection, timeouts and savepoints of the database are not.
- Letter case beyond ASCII, and keys of JSON maps that are neither strings nor given by their text.
- Floating point: percentages, scroll depths and durations are exact numbers, and infinities do not occur.
- A props cell whose text parses to something other than an object, on which the program would fail.
- Date.parse of row stamps is a parameter; of date texts it is modelled on the one shape the program writes.
- Instants whose Korean date, or the one 29 days earlier, falls outside the years 0000 to 9999.
- The ILIKE pattern of the idol search is a parameter.
- Session fields that depend on the order of the log (source, referrer, role, last event) are computed but not part of the permutation property.
