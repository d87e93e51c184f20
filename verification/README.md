# Verified model of the learning platform's API core

The API of the platform keeps invitations and seat caps, practice streaks and points,
assignments with attempts and grades, classrooms with batches, and mailed single-use
credentials. This project models those five parts and proves what they promise.

A database transaction, or one conditional `UPDATE`, is one atomic function from rows to rows.
Unique indexes are state predicates. Five parts read outside their transactions, or use none, and
there each request is split at its database calls, so that any interleaving is one sequence of
steps: invites with resends, revokes, claims, staff edits and practice inserts (`Invites`),
attempts (`Attempts`), grading and answers (`GradingCalls`), classrooms, batches and assignments
with status refreshes and the sweep (`ClassroomRaces`), and credentials with account edits
(`Credentials`). A row that is loaded and saved later is written back as it was loaded. Theorems about runs hold for every sequence, or
for every sequence whose steps meet a guard, and then the exact condition on the guarded step is
proved beside it.

`Rollups`, `RevealGate`, `Totals` and `ClassroomStructure` are about calls run one at a time;
`GradingRaces`, `RaceRuns` and `RaceTurns` say exactly how much of that survives overlapping calls, and
`GradingRaces` proves that an uninterrupted call is its one-step form. Authoring of items
(`ItemRuns`) is only treated one call at a time.

The services that update objects in place also appear as classes whose methods do so statement by
statement; each method is proved equal to the row function of its call run alone.

| part | rows, steps and row functions | what is proved | service classes |
|---|---|---|---|
| invites and seats | `Roles`, `Invites` | `InviteSeats`, `InviteProtocol`, `InviteOverlaps`, `Attribution` | `InvitesService` |
| practice streaks and points | `Calendar`, `Streaks`, `Gamification` | the same files | `Gamification` |
| assignments: items and grading | `Tables`, `Grading`, `GradingCalls`, `McqScoring`, `Items` | `RevealGate`, `Rollups`, `Totals`, `GradingRuns`, `GradingRaces`, `ItemRuns` | `GradingService`, `ItemsService` |
| assignments: attempts | `Schedule`, `Attempts` | `AttemptRuns` | `TakingService` |
| classrooms, batches, targeting | `Classrooms`, `ClassroomRaces` | `ClassroomStructure`, `RaceRuns`, `RaceTurns`, `RaceWitnesses`, `RefreshWitnesses`, `Visibility` | `ClassroomsService` |
| credentials and mail | `Credentials`, `MailJobs` | `CredentialRuns`, `MailJobs` | `CredentialsService`, `MailJobs` |

`dafny verify dfyconfig.toml` checks everything.

## Where the code does not do what its documentation says

The model follows the code. Each of these is a theorem with the exact condition, and most come
with an input or a run that reaches the failure.

- Seat caps are described as never exceeded. `resend` extends the deadline of a timed-out pending
  invite without charging a seat again, so it exceeds a cap exactly when the invite had timed out
  and a cap that counts its role was already full (`ResendKeepsBoundExactlyWhen`,
  `ResendCanOversubscribe`).
- An invite is described as redeemable once. `resend` saves the row it loaded, so when an accept
  comes in between, the spent invite is pending again under a new token: it can be redeemed again
  and holds a second, uncharged seat (`SpentStaysSpentExactlyWhen`, `RedemptionsOverEveryRun`,
  `SaveInviteKeepsBoundExactlyWhen`, `ARevivedInviteIsRedeemedTwice`, `ARevivedInviteHoldsASecondSeat`).
- `setRole` charges the new role's cap only, and saves the account as it was loaded. When the
  account was deactivated or moved meanwhile, the save makes it active there again uncharged
  (`SaveAccountKeepsBoundExactlyWhen`, `ARoleChangeRestoresALostSeat`).
- The lazy expiry write of `requireConsumable` is keyed by id alone, so a request that saw a
  timed-out pending row can relabel an invite another request has accepted meanwhile
  (`AcceptedLabelKeptExactlyWhen`, `ARedeemedInviteIsRelabelled`).
- `claim` reads the account outside its transaction. Two claims of one user past that read at the
  same time can move an account that has settled (`CommitClaimSafeExactlyWhen`,
  `SecondClaimInFlightMovesASettledMember`); no other step of the protocol can
  (`ClaimSafeUnlessAnotherClaimCommits`).
- A claim re-stamps the rows of its user so that each carries the user's organization. A practice
  row inserted later with an organization read before the claim keeps the old one
  (`InsertKeepsAttributionExactlyWhen`, `AClaimBeforeTheInsertLeavesTheOldStamp`), and so do all
  rows of an account that a staff save puts back (`SaveKeepsAttributionExactlyWhen`).
- `subtractDay` returns a date 1900 years off for years 0 to 99 (`SubtractDayIsPredecessorExactlyFromYear100`).
- The day of an event is computed before the row is locked, so days can come out of order. Then
  the streaks can be too short, never too long: they are the longest climbs of the history
  (`CurrentIsRightExactlyWhen`, `LongestIsRightExactlyWhen`, `StreaksNeverOverstate`,
  `ABackdatedEventLosesTheStreak`).
- Before grades are published a student should not learn that grading has begun. Grading an item
  the student never started changes the student's own view (`GradingIsHiddenExactlyWhenStarted`,
  `GradingAnUnansweredQuizItemShows`).
- The stored total is described as the true total. It also counts scores on problems no item
  wraps, an MCQ save does not refresh it, and of two overlapping calls the one that summed first
  can save last (`RollupIsTheGradebookSum`, `McqSaveMovesTheTotalExactlyWhenTheAwardMoves`,
  `SavedTotalIsRightExactlyWhen`, `AnOverlappedTotalIsLost`).
- A finalized submission is documented as never reverting a grade. It saves the row it loaded, so
  a grade given in between is taken back (`TrackingKeepsTheGradeExactlyWhen`,
  `AGradeInBetweenIsTakenBack`).
- The attempt deadline is documented as start plus duration. `startAttempt` does not cap it at the
  assignment's end and `assertTestAttemptOpen` does (`DeadlinesAgreeExactlyWhen`).
- A save that passed its check lands even after the attempt has closed
  (`AnswersCanStillChangeExactlyWhenASaveIsInFlight`).
- The visibility rule is written three times "so they can't drift". The list filters the stored
  status before the time transition and the view after it, and the view has an arm for graders the
  list lacks (`ListAndViewDisagreeExactlyWhen`, `AnUnseenStartOpensBeforeItIsListed`).
- Creating a classroom keeps its professor out of the member lists; updating it does not
  (`CreatedApart`, `UpdatedApartExactlyWhen`, `AnUpdateCanEnrolTheProfessor`).
- Students and graders of a classroom are disjoint, batches are a subset of its students and a
  batch that is targeted cannot be removed, as long as calls run one at a time. Each save has its
  exact condition, and overlapping calls break each promise
  (`RoomSaveSoundExactlyWhen`, `BatchSaveSoundExactlyWhen`, `BatchDeleteSoundExactlyWhen`,
  `TwoUpdatesPutOneUserOnBothSides`, `TwoEnrolmentsLeaveTheCountShort`,
  `LeavingWhileJoiningLeavesABatchOutside`, `TargetingWhileDeletingLeavesNoTarget`). Nothing breaks
  while calls on one classroom take turns (`TurnsKeepTheStructure`).
- Manual states are described as never touched by the time transition. Whoever reads a due
  assignment saves it later as it was read, so released grades can be taken back, and the sweep,
  which reads no target rows, can leave the kind of target and the targets apart
  (`StatusGoesBackExactlyWhen`, `RefreshSaveSoundExactlyWhen`,
  `AStaleRefreshTakesBackReleasedGrades`, `ASweepMisplacesTheTargets`).
- The verification stamp is documented as keeping its first time. An account edit loaded before
  the address was verified and saved after it clears the stamp (`VerificationTimeMovesExactlyWhen`,
  `AnEditTakesTheVerificationBack`).
- The comment on `register` says the password of an earlier registration is never that of a
  verified account. An account opens with the first form's password and no other, whichever
  registration's link verified it, until its owner resets it (`TheFirstPasswordStands`,
  `LogInOverARun`, `ResetThenLogin`).

## Model

| member | source | states |
|---|---|---|
| Roles.ChargedIffCounted | apps/api/src/modules/quotas/seat-predicate.ts:56-78 | the caps an enforcement point charges for a role are exactly the caps that count that role |
| Roles.InvitesPointDownwards | apps/api/src/modules/invites/invite-policy.ts:50-60 | nobody can invite a role at or above their own, and nobody can invite a superadmin |
| InviteSeats.SeatBoundOverEveryRun | apps/api/src/modules/invites/invites.service.ts:278-322 | over every interleaving of mint, accept, claim, resend, revoke and staff account changes, each of the last three split into load and save, of expiry and clock ticks, no capped organization exceeds its total or per-role cap, provided every step meets its guard, which is exact |
| InviteSeats.StepKeepsBoundExactlyWhen | apps/api/src/modules/quotas/quota.service.ts:46-66 | a step of any kind keeps every cap if and only if it meets its guard: a saved invite or account puts back no seat in a full organization, and no limit is set below use |
| InviteSeats.SaveInviteKeepsBoundExactlyWhen | apps/api/src/modules/invites/invites.service.ts:238-274 | saving a loaded invite for a resend or revoke keeps every cap if and only if it is no resend of a row loaded as pending whose stored row holds no seat by then in a cap that is full |
| InviteSeats.ResendKeepsBoundExactlyWhen | apps/api/src/modules/invites/invites.service.ts:238-267 | a resend that runs alone keeps the bound if and only if the invite was not a timed-out pending one at a cap already full |
| InviteSeats.SetLimitKeepsBoundExactlyWhen | apps/api/src/modules/quotas/quota.service.ts:99-118 | setting a cap keeps the bound if and only if the new limit covers the seats in use |
| InviteSeats.SaveAccountKeepsBoundExactlyWhen | apps/api/src/modules/users/users.service.ts:473-553 | saving a loaded account for a role or access change keeps every cap if and only if it does not restore, by a role change, an active membership lost since it was loaded in a full organization |
| InviteSeats.ARoleChangeRestoresALostSeat | apps/api/src/modules/users/users.service.ts:473-488 | such a save is reached: load for a new role, deactivate, create a replacement, save |
| InviteSeats.ResendCanOversubscribe | apps/api/src/modules/invites/invites.service.ts:253-257 | there is a state within the caps in which one permitted resend, run alone, puts an organization over its cap |
| InviteSeats.ResendSeats | apps/api/src/modules/invites/invites.service.ts:253-257 | a resend that runs alone adds a seat exactly for a timed-out pending invite and the caps that count its role |
| InviteSeats.ConsumeReleases | apps/api/src/modules/invites/invites.service.ts:506-518 | consuming a live invite frees exactly one seat in each cap that counted it |
| InviteSeats.AcceptingALiveInviteIsNetZero | apps/api/src/modules/invites/invites.service.ts:278-310 | whenever the bound holds, neither the total nor the role check can refuse an accept after the consume |
| InviteSeats.ChargingFirstRefusesExactlyAtCap | apps/api/src/modules/invites/invites.service.ts:278-286 | charging before consuming would refuse a live invite if and only if a cap that counts it is full |
| InviteProtocol.EachInviteIsRedeemedAtMostOnce | apps/api/src/modules/invites/invites.service.ts:506-518 | over every interleaving in which no save of a resend makes a spent invite pending, no two accept or claim requests succeed on one invite |
| InviteProtocol.RedemptionsOverEveryRun | apps/api/src/modules/invites/invites.service.ts:506-518 | over every interleaving at all, an invite is redeemed at most once more than resends have made it pending again |
| InviteProtocol.SpentStaysSpentExactlyWhen | apps/api/src/modules/invites/invites.service.ts:238-257 | a step makes a spent invite pending if and only if it saves a resend that loaded it while it was pending |
| InviteProtocol.CommitEffect | apps/api/src/modules/invites/invites.service.ts:299-343 | a commit changes nothing or spends one pending invite and inserts, keeps or re-homes exactly one account |
| InviteProtocol.OnlyCommitsTouchAccounts | apps/api/src/modules/invites/invites.service.ts:287-395 | outside staff operations nothing but a commit writes an account |
| InviteProtocol.AcceptedLabelKeptExactlyWhen | apps/api/src/modules/invites/invites.service.ts:439-444 | an accepted invite keeps its label in a step if and only if the step is neither a pending expiry write of that id, nor the save of a revoke of it, nor the save of a resend that loaded it with another label |
| InviteProtocol.ARedeemedInviteIsRelabelled | apps/api/src/modules/invites/invites.service.ts:439-444 | a run in which an invite is redeemed and then relabelled as expired |
| InviteOverlaps.ManagingAlone | apps/api/src/modules/invites/invites.service.ts:238-274 | load and save of a resend or a revoke with nothing in between are its one-step form |
| InviteOverlaps.AResendRevivesARedeemedInvite | apps/api/src/modules/invites/invites.service.ts:238-257 | whenever an accept commits between load and save of a resend of a live invite, it succeeds and the invite ends live under the new token |
| InviteOverlaps.ARevivedInviteHoldsASecondSeat | apps/api/src/modules/invites/invites.service.ts:253-257 | after such a run the organization uses one seat more in each cap that counts the role, so a full one is over its cap |
| InviteOverlaps.ARevivedInviteIsRedeemedTwice | apps/api/src/modules/invites/invites.service.ts:287-343 | after such a run the new token is redeemed too, and two requests have succeeded on one invite |
| InviteProtocol.OnePendingRowPerAddress | apps/api/src/database/migrations/1785530000000-ReshapeOrgInvites.ts:119-123 | over every run at most one pending invite exists per organization and lower-case address |
| InviteProtocol.RefusedAsPendingExactlyWhenLive | apps/api/src/modules/invites/invites.service.ts:115-160 | minting is refused as already pending if and only if an unexpired pending invite exists, and otherwise succeeds if and only if the caps have room |
| InviteProtocol.SweepKeepsSeats | apps/api/src/modules/invites/invites.service.ts:549-564 | sweeping timed-out invites of an address changes no seat count |
| InviteProtocol.ClaimsAreSafeOverEveryRun | apps/api/src/modules/invites/invites.service.ts:349-395 | over runs of protocol steps, that is without account creation, assignment and saves by staff, in which one user's claims come in sequence: no rank falls, no superadmin is touched and no settled member moves |
| InviteProtocol.ClaimRestamps | apps/api/src/modules/invites/invites.service.ts:527-540 | a claim re-stamps every row of its user and no other |
| InviteProtocol.CommitClaimSafeExactlyWhen | apps/api/src/modules/invites/invites.service.ts:373-394 | without that discipline a claim's commit is safe if and only if the account as it stands is not demoted, not a foreign superadmin and claimable or at home |
| InviteProtocol.ClaimSafeUnlessAnotherClaimCommits | apps/api/src/modules/invites/invites.service.ts:349-395 | a claim whose account was claimable at its lookup stays safe to commit over any run of protocol steps in which no other claim of that user commits |
| InviteProtocol.SecondClaimInFlightMovesASettledMember | apps/api/src/modules/invites/invites.service.ts:349-395 | two claims in flight both succeed and the second moves a settled member |
| Attribution.RowsAreAttributedOverEveryRun | apps/api/src/modules/invites/invites.service.ts:527-540 | over every run, staff steps and overlapping claims included, no submission or gamification row is lost or handed on, and each carries its owner's organization except those inserted with an overtaken stamp or left behind by a staff save, until the next re-stamping |
| Attribution.InsertKeepsAttributionExactlyWhen | apps/api/src/modules/gamification/gamification.service.ts:52-78 | inserting a practice row with a stamp read earlier keeps every row attributed if and only if the row exists already or the stamp is still the account's organization |
| Attribution.SaveKeepsAttributionExactlyWhen | apps/api/src/modules/users/users.service.ts:521-553 | a staff save of a loaded account keeps every row attributed if and only if the account has not moved since or has no rows |
| Attribution.AClaimBeforeTheInsertLeavesTheOldStamp | apps/api/src/modules/gamification/gamification.service.ts:52-78 | a run in which the worker reads a user without an organization, a claim commits, and the inserted row keeps the legacy organization |
| InvitesService.Service.AssertWithinQuota | apps/api/src/modules/quotas/quota.service.ts:46-66 | the quota check is the comparison of counted seats plus one with the limit, unlimited when there is none |
| InvitesService.Service.AssertRoleSeat | apps/api/src/modules/invites/invites.service.ts:411-419 | the role check consults the role's own cap and nothing for administrators |
| InvitesService.Service.ConsumeInvite | apps/api/src/modules/invites/invites.service.ts:506-518 | the conditional update flips a pending invite and reports whether it did |
| InvitesService.Service.ExpireStale | apps/api/src/modules/invites/invites.service.ts:549-564 | expires exactly the timed-out pending rows of one address |
| InvitesService.Service.Create | apps/api/src/modules/invites/invites.service.ts:72-173 | performs the mint step or restores the rows and reports its refusal |
| InvitesService.Service.ResendInvite | apps/api/src/modules/invites/invites.service.ts:238-267 | performs the resend step or changes nothing and reports its refusal |
| InvitesService.Service.RevokeInvite | apps/api/src/modules/invites/invites.service.ts:269-274 | performs the revoke step or changes nothing and reports its refusal |
| InvitesService.Service.AcceptAsNewAccount | apps/api/src/modules/invites/invites.service.ts:299-343 | consumes, then charges, then inserts, all or nothing |
| InvitesService.Service.ClaimInvite | apps/api/src/modules/invites/invites.service.ts:373-394 | consumes, charges, moves and re-stamps, all or nothing |
| Calendar.DateOfIsValid | apps/api/src/modules/gamification/gamification.util.ts:26-31 | every day number is the number of a valid Gregorian date |
| Calendar.DayNumberInjective | apps/api/src/modules/gamification/gamification.util.ts:26-31 | different valid dates have different day numbers |
| Calendar.PredecessorLowersByOne | apps/api/src/modules/gamification/gamification.util.ts:26-31 | the calendar predecessor, through month ends, year ends and leap Februaries, lowers the day number by one |
| Calendar.SubtractDayIsPredecessorExactlyFromYear100 | apps/api/src/modules/gamification/gamification.util.ts:26-31 | `subtractDay` of a valid date string is the string of its calendar predecessor if and only if its year is at least 100 |
| Calendar.SubtractDayInjective | apps/api/src/modules/gamification/gamification.util.ts:26-31 | on those dates `subtractDay` is injective |
| Streaks.AdvanceKeepsMeaning | apps/api/src/modules/gamification/gamification.service.ts:84-88 | one incremental step keeps current and longest equal to the blocks of consecutive active days they stand for |
| Streaks.CurrentIsRightExactlyWhen | apps/api/src/modules/gamification/gamification.service.ts:84-88 | for an arbitrary next date the current streak stays the block ending there if and only if the date does not precede the last one or the day before it was inactive |
| Streaks.LongestIsRightExactlyWhen | apps/api/src/modules/gamification/gamification.service.ts:84-88 | for an arbitrary new date the longest streak stays right if and only if the block it joins together is no longer than the stored longest, or the date is isolated, or it follows the last date and prolongs the current streak to that whole block |
| Streaks.StreaksAreRightExactlyWhenClimbed | apps/api/src/modules/gamification/gamification.service.ts:84-88 | after events on any days in any order the counters never exceed the blocks they stand for, and each is right if and only if the history climbs day by day through such a block |
| Streaks.EffectiveMeaning | apps/api/src/modules/gamification/gamification.util.ts:37-47 | the effective streak is the length of the block reaching today or yesterday, and 0 when neither was active |
| Streaks.BlockLengthUnique | apps/api/src/modules/gamification/gamification.service.ts:84-88 | the maximal block of active days ending at a day has one length, so the meaning of a streak is definite |
| Gamification.StreaksMeanWhatTheySay | apps/api/src/modules/gamification/gamification.service.ts:83-97 | after any history with non-decreasing dates, current is the maximal block ending at the last active day and longest the longest block in the set of active days |
| Gamification.EffectiveStreakMeaning | apps/api/src/modules/gamification/gamification.util.ts:37-47 | the same reading for the string-based `effectiveStreak` over whole histories |
| Gamification.StreaksNeverOverstate | apps/api/src/modules/gamification/gamification.service.ts:56-88 | after any history with dates in any order the stored streaks are at most the true ones; the current one is right if and only if the events climb day by day through the block that ends last, the longest one if and only if they climb through some longest block |
| Gamification.ABackdatedEventLosesTheStreak | apps/api/src/modules/gamification/gamification.service.ts:56-88 | three days in a row with the middle one awarded last leave both streaks at one where two and three are true |
| Gamification.PointsAreConserved | apps/api/src/modules/gamification/gamification.service.ts:66-130 | after any events in any order with re-fires, points equal the ledger sum and 10, 25 and 50 per solve, counters equal solved rows per difficulty, daily counts sum to the ledger and the events, and the solved problems are exactly the accepted ones |
| Gamification.RefiringPaysNothing | apps/api/src/modules/gamification/gamification.service.ts:99-127 | handling an event again changes only the day's submission count |
| Gamification.Service.HandleFinalizedSubmission | apps/api/src/modules/gamification/gamification.service.ts:46-131 | writes the award of the event a qualifying submission stands for, and nothing for any other |
| Gamification.Service.GetSummary | apps/api/src/modules/gamification/gamification.service.ts:136-142 | reports the stored points, the effective streak and the longest streak, zeros without rows |
| RevealGate.UnpublishedViewIgnoresGrades | apps/api/src/modules/grading/grading.service.ts:509-565 | two databases that differ only in scores, awards, feedback, pins and graded-versus-submitted give a student the same unpublished view |
| RevealGate.UnpublishedViewIsWhatWasStarted | apps/api/src/modules/grading/grading.service.ts:587-640 | two unpublished views of the same items are equal if and only if the same items were started |
| RevealGate.GradingIsHiddenExactlyWhenStarted | apps/api/src/modules/grading/grading.service.ts:307-373 | grading an item leaves the student's unpublished view unchanged if and only if the item was already started |
| RevealGate.GradingAnUnansweredQuizItemShows | apps/api/src/modules/grading/grading.service.ts:350-369 | grading a quiz item nobody answered succeeds and changes the student's unpublished view |
| RevealGate.GradingTouchesOneStudent | apps/api/src/modules/grading/grading.service.ts:307-373 | grading one student changes no other student's view of any assignment, published or not |
| RevealGate.GradingShowsOncePublished | apps/api/src/modules/grading/grading.service.ts:326-373 | once published the graded line shows the given score, the graded status and the new feedback or else the old |
| RevealGate.AnsweringShows | apps/api/src/modules/assignments/assignment-taking.service.ts:156-170 | a saved MCQ answer counts at once and shows as merely submitted before publication |
| RevealGate.QuizAnswerWaitsForAProfessor | apps/api/src/modules/assignments/assignment-taking.service.ts:185-196 | a saved quiz answer keeps any award and feedback given and awards nothing itself |
| Rollups.RollupIsTheGradebookSum | apps/api/src/modules/grading/grading.service.ts:700-732 | the recomputed total is the sum of the item scores the gradebook shows plus the scores on problems no item wraps |
| Rollups.NothingUnwrapped | apps/api/src/modules/grading/grading.service.ts:700-709 | that remainder is zero when every problem of the assignment is wrapped by an item |
| GradingRuns.TotalsOverEveryRun | apps/api/src/modules/grading/grading.service.ts:700-732 | over every interleaving of the statements of grades, submissions, answers and deletions: a stored total summed after the last change to the student's points is the gradebook sum plus the scores on problems no item wraps |
| GradingRuns.SettledOverEveryRun | apps/api/src/modules/grading/grading.service.ts:640-673 | over every such interleaving keys stay unique, links one-to-one, and every sum a request holds is the sum as it stood when it was read |
| GradingRuns.SaveMovesOneSum | apps/api/src/modules/grading/grading.service.ts:700-725 | saving a row moves one of the three sums of one student by the change in points, and no other sum of anybody |
| GradingRaces.UninterruptedIsAtomic | apps/api/src/modules/grading/grading.service.ts:290-369 | the statements of a grade, a submission or an answer, run without interference, add up to its one-step form |
| GradingRaces.SavedTotalIsRightExactlyWhen | apps/api/src/modules/grading/grading.service.ts:727-732 | saving a total leaves it right if and only if the held sum is still the student's true total, and moves no other stored total |
| GradingRaces.AnOverlappedTotalIsLost | apps/api/src/modules/grading/grading.service.ts:700-732 | whenever one call sums, another one for the same student that changes points runs whole, and the first then saves, the stored total ends wrong although both succeed |
| GradingRaces.TrackingKeepsTheGradeExactlyWhen | apps/api/src/modules/grading/grading.service.ts:108-124 | the save of a finalized submission keeps the score, the feedback and the graded status there by then if and only if the row it loaded already had them |
| GradingRaces.AGradeInBetweenIsTakenBack | apps/api/src/modules/grading/grading.service.ts:108-124 | a grade given between the load and the save of a submission succeeds and ends ungraded, with the old score |
| GradingRaces.SubmittingAwardsNothingUnlessOvertaken | apps/api/src/modules/grading/grading.service.ts:108-124 | over any run of other requests that leaves the loaded row alone, the submission keeps score, feedback and grade and counts one more |
| GradingRaces.AnswersAndAwardsKeptExactlyWhen | apps/api/src/modules/assignments/assignment-taking.service.ts:156-196 | a quiz answer keeps the award there by then, and an MCQ override the selection, if and only if the loaded row already had it |
| Totals.RecomputedTotalIsTheGradebookSum | apps/api/src/modules/grading/grading.service.ts:290-296 | right after a grade or a counted submission that ran alone the total is that sum, and no other student's stored total moved |
| Totals.McqSaveMovesTheTotalExactlyWhenTheAwardMoves | apps/api/src/modules/assignments/assignment-taking.service.ts:130-173 | an MCQ save leaves the true total alone if and only if the award stays the same, and never rewrites the stored one |
| Totals.SubmittingAwardsNothing | apps/api/src/modules/grading/grading.service.ts:108-125 | a finalized submission that runs alone changes no score, takes no grade back and never unpins an accepted submission |
| Totals.SeriesOfSubmissions | apps/api/src/modules/grading/grading.service.ts:108-124 | after any series of submissions, one at a time, the count is its length, the pin is the last accepted submission or failing any the right fallback, and a grade stands |
| GradingService.Nest | apps/api/src/modules/grading/grading.service.ts:567-580 | the two-level map finds for every pair of keys the last row that has both |
| GradingService.Service.GetStudentsScore | apps/api/src/modules/grading/grading.service.ts:194-267 | the bulk gradebook equals, row for row, the published per-student view of every enrolled student |
| GradingService.BulkLineIsStudentLine | apps/api/src/modules/grading/grading.service.ts:244-255 | a line read through the two-level maps is the line of the student's own view |
| GradingService.Service.RecomputeAssignmentScore | apps/api/src/modules/grading/grading.service.ts:700-732 | creates or updates exactly one total with the three sums |
| GradingService.Service.GradeItem | apps/api/src/modules/grading/grading.service.ts:307-373 | performs the item-keyed grade or changes nothing and reports its refusal |
| GradingService.Service.UpdateScore | apps/api/src/modules/grading/grading.service.ts:273-299 | performs the problem-keyed grade or changes nothing and reports its refusal |
| GradingService.Service.OnSubmissionFinalized | apps/api/src/modules/grading/grading.service.ts:90-135 | tracks the submission and recomputes, or does nothing for practice, unknown problems and the professor |
| GradingService.Service.SaveMcqResponse | apps/api/src/modules/assignments/assignment-taking.service.ts:140-170 | stores the sanitized selection with its award |
| McqScoring.AwardedExactlyWhenTheSetsMatch | apps/api/src/modules/assignments/assignment-taking.service.ts:141-154 | points are awarded if and only if some option is correct and the chosen options of the item are exactly the correct ones |
| McqScoring.AwardIgnoresNoise | apps/api/src/modules/assignments/assignment-taking.service.ts:143-146 | order, repeats and foreign ids do not matter, and re-scoring the stored selection gives the same award |
| McqScoring.SanitizeMembers | apps/api/src/modules/assignments/assignment-taking.service.ts:143-146 | the stored selection holds each chosen option of the item once and nothing else |
| McqScoring.SingleAnswerHasOneWinner | apps/api/src/modules/assignments/assignment-items.service.ts:265-279 | a valid single-answer question is won by exactly one option, chosen alone |
| McqScoring.ValidQuestionsCanBeWon | apps/api/src/modules/assignments/assignment-items.service.ts:265-279 | a valid question is won by choosing its correct options |
| ItemRuns.PapersStayWellFormed | apps/api/src/modules/assignments/assignment-items.service.ts:95-200 | over any run of authoring calls every MCQ item stays valid and every coding item wraps one problem of its assignment with equal points |
| ItemRuns.RoutesAgreeExactlyInLockstep | apps/api/src/modules/assignments/coding-points.util.ts:10-29 | grading an item and grading the problem it wraps are the same operation if and only if the two stored maxima are equal |
| ItemRuns.WellFormedIsWellLinked | apps/api/src/modules/assignments/assignment-items.service.ts:220-252 | authoring guarantees the one-to-one links the totals rely on |
| ItemsService.Service.Create | apps/api/src/modules/assignments/assignment-items.service.ts:95-139 | creates the item of the given kind or changes nothing and reports its refusal |
| ItemsService.Service.Update | apps/api/src/modules/assignments/assignment-items.service.ts:141-188 | applies the changes with both copies of the points, or changes nothing |
| ItemsService.Service.Delete | apps/api/src/modules/assignments/assignment-items.service.ts:190-200 | removes the item, a coding item together with its problem |
| ItemsService.Service.Reorder | apps/api/src/modules/assignments/assignment-items.service.ts:202-216 | the loop leaves every listed item of the assignment at its last listed position |
| ItemsService.ReorderShowsTheListedOrder | apps/api/src/modules/assignments/assignment-items.service.ts:210-213 | a list without repeats puts the assignment's items in that order and moves nothing else |
| Schedule.RefreshSettles | apps/api/src/modules/assignments/entities/assignment.entity.ts:96-112 | a time transition settles at once, never goes back and leaves nothing active past its end; looking twice differs from looking late exactly for a window that opened and closed between |
| Schedule.MissedWindowStaysScheduled | apps/api/src/modules/assignments/entities/assignment.entity.ts:103-106 | a scheduled assignment stays scheduled if and only if the clock is outside its window |
| AttemptRuns.AttemptsOnlyEnd | apps/api/src/modules/assignments/assignment-taking.service.ts:92-124 | over every interleaving there is one attempt per student and assignment, with fixed owner, start and deadline, and none reopens |
| AttemptRuns.RacingStartsAgree | apps/api/src/modules/assignments/assignments.service.ts:699-727 | any two requests of one student on one assignment that end with an attempt, started, admitted or refused as over, in any mix, name the same one, and there is no other |
| AttemptRuns.AdmittedInTime | apps/api/src/modules/assignments/assignments.service.ts:729-738 | a code submission is let through only by its attempt's deadline |
| AttemptRuns.SweepLeavesNoneExpired | apps/api/src/modules/assignments/assignments.service.ts:745-753 | after a sweep an attempt is open if and only if it was open with its deadline still ahead, and others are untouched |
| AttemptRuns.DeadlinesAgreeExactlyWhen | apps/api/src/modules/assignments/assignments.service.ts:707-709 | the two ways to start a test give one deadline if and only if its clock runs out by the assignment's end |
| AttemptRuns.GateAndSweepOverlapExactlyAtTheDeadline | apps/api/src/modules/assignments/assignment-taking.service.ts:223-243 | an open attempt is both writable and sweepable exactly at its deadline |
| AttemptRuns.AnswersCanStillChangeExactlyWhenASaveIsInFlight | apps/api/src/modules/assignments/assignment-taking.service.ts:130-196 | once a student's test is over, some further run that keeps it a test changes an answer if and only if a save is past its check |
| AttemptRuns.NonePendingKeepsAnswers | apps/api/src/modules/assignments/assignment-taking.service.ts:223-243 | with no such save every further run leaves the student's answers on the test as they are |
| TakingService.Service.StartAttempt | apps/api/src/modules/assignments/assignment-taking.service.ts:92-124 | alone, performs the start request's steps and returns the row they name |
| TakingService.Service.SaveResponse | apps/api/src/modules/assignments/assignment-taking.service.ts:130-196 | alone, performs the save request's steps |
| TakingService.Service.AssertWithinDeadline | apps/api/src/modules/assignments/assignment-taking.service.ts:223-243 | decides the gate of a save |
| TakingService.Service.SubmitAttempt | apps/api/src/modules/assignments/assignment-taking.service.ts:198-208 | alone, performs the submit request's steps and returns a closed attempt |
| TakingService.Service.AssertTestAttemptOpen | apps/api/src/modules/assignments/assignments.service.ts:699-739 | alone, performs the gate request's steps |
| TakingService.Service.FinalizeExpiredAttempts | apps/api/src/modules/assignments/assignments.service.ts:745-753 | exactly the attempts in progress with a deadline at or before now become auto-submitted with that time, the others stay, and the result is their number |
| ClassroomStructure.StructureOverEveryRun | apps/api/src/modules/classrooms/classrooms.service.ts:106-218 | over any run of membership, batch and assignment calls run one at a time: students and graders are disjoint and counted, batches are parts of their classroom with names of their own, batch targets are non-empty and local, classroom targets have none, tests have a clock |
| RaceRuns.StructureOverEveryInterleaving | apps/api/src/modules/classrooms/classrooms.service.ts:106-218 | over every interleaving of loads, comparisons, saves, status refreshes and sweeps whose guards hold the same structure holds, but for batch rows a running call is about to delete, and outright once none is |
| RaceRuns.StepSoundExactlyWhen | apps/api/src/modules/classrooms/batches.service.ts:73-134 | a step of any kind keeps the invariant of that theorem if and only if its guard holds |
| RaceRuns.RoomSaveSoundExactlyWhen | apps/api/src/modules/classrooms/classrooms.service.ts:150-153 | writing what a classroom save found changed keeps the structure if and only if nobody is added on one side who stays on the other, joins and leaves since the comparison cancel out as far as the count is concerned, and nobody dropped is still in a batch |
| RaceRuns.BatchSaveSoundExactlyWhen | apps/api/src/modules/classrooms/batches.service.ts:93-106 | saving a loaded batch keeps the structure if and only if its members are still students of the classroom |
| RaceRuns.BatchDeleteSoundExactlyWhen | apps/api/src/modules/classrooms/batches.service.ts:120-134 | deleting a batch after its check keeps the structure if and only if no assignment targets it alone by then |
| RaceRuns.RefreshSaveSoundExactlyWhen | apps/api/src/modules/assignments/assignments.service.ts:663-690 | saving refreshed assignments keeps the structure if and only if they were read with their target rows or each is still targeted as the stored target rows say |
| RaceRuns.JudgedIsTheOneStepForm | apps/api/src/modules/assignments/assignments.service.ts:230-368 | refresh, checks and save of a call on an assignment, run without interference, are its one-step form |
| RaceTurns.TurnsKeepTheStructure | apps/api/src/modules/classrooms/classrooms.service.ts:106-218 | over every interleaving in which no step changes the rows of a classroom another call is still working on, every guard holds, so the structure does |
| RaceTurns.TurnsKeepStatuses | apps/api/src/modules/assignments/assignments.service.ts:297-368 | over such interleavings the status of an assignment that remains never goes back |
| RaceRuns.FreshComparisonGivesTheEditedRow | apps/api/src/modules/classrooms/classrooms.service.ts:150-153 | a classroom save that nobody came before writes the edited members, professor and count |
| RaceWitnesses.TwoUpdatesPutOneUserOnBothSides | apps/api/src/modules/classrooms/classrooms.service.ts:106-153 | two overlapping updates by managers, each with its check, leave one user among students and graders |
| RaceWitnesses.TwoEnrolmentsLeaveTheCountShort | apps/api/src/modules/classrooms/classrooms.service.ts:106-153 | two overlapping updates that each enrol one more student enrol both and count one |
| RaceWitnesses.LeavingWhileJoiningLeavesABatchOutside | apps/api/src/modules/classrooms/batches.service.ts:93-106 | a student who leaves the classroom while being added to a batch stays in the batch |
| RaceWitnesses.TargetingWhileDeletingLeavesNoTarget | apps/api/src/modules/assignments/assignments.service.ts:148-187 | an assignment created for a batch while that batch is being removed ends targeted at no batch |
| RefreshWitnesses.ASweepMisplacesTheTargets | apps/api/src/modules/assignments/assignments.service.ts:677-690 | an assignment retargeted between load and save of the sweep ends classroom-targeted with target batches or batch-targeted with none |
| RefreshWitnesses.AStaleRefreshTakesBackReleasedGrades | apps/api/src/modules/assignments/assignments.service.ts:663-668 | grades released between load and save of a read are taken back: the assignment ends merely completed |
| ClassroomStructure.UpdateAddsExactly | apps/api/src/modules/classrooms/classrooms.service.ts:116-153 | an update adds exactly the people sent, on the side sent, and removes nobody |
| ClassroomStructure.AddingStudentsRefusedExactlyWhen | apps/api/src/modules/classrooms/classrooms.service.ts:117-127 | adding known colleagues as students is refused if and only if one of them is a grader |
| ClassroomStructure.LoadUsersMeans | apps/api/src/modules/classrooms/classrooms.service.ts:251-274 | loading people yields exactly those asked for, once each, all of the actor's organization |
| ClassroomStructure.CreatedApart | apps/api/src/modules/classrooms/classrooms.service.ts:229-239 | creation keeps professor and creator out of the member lists |
| ClassroomStructure.UpdatedApartExactlyWhen | apps/api/src/modules/classrooms/classrooms.service.ts:142-150 | an update leaves the professor outside the member lists if and only if the one in office afterwards was no member and is not being added |
| ClassroomStructure.AnUpdateCanEnrolTheProfessor | apps/api/src/modules/classrooms/classrooms.service.ts:116-127 | a permitted update enrols the professor in office as a student |
| ClassroomStructure.RemoveStudentKeeps | apps/api/src/modules/classrooms/classrooms.service.ts:191-208 | leaving a classroom is leaving each of its batches, and nobody else leaves |
| ClassroomStructure.BatchesHoldWhatTheyWereGiven | apps/api/src/modules/classrooms/batches.service.ts:73-118 | batch calls accept exactly enrolled students and leave exactly the requested members |
| ClassroomStructure.RemoveBatchKeeps | apps/api/src/modules/classrooms/batches.service.ts:120-134 | a permitted batch removal never empties or dangles an assignment's targets |
| ClassroomStructure.TargetingAcceptedExactlyWhen | apps/api/src/modules/assignments/assignments.service.ts:148-187 | targeting is accepted if and only if tests have a clock and batch targets are local and non-empty, and then stores what was sent |
| ClassroomStructure.UpdateAssignmentKeeps | apps/api/src/modules/assignments/assignments.service.ts:249-287 | a partial update validates the merged targeting, so it keeps the structure |
| ClassroomStructure.StatusNeverGoesBack | apps/api/src/modules/assignments/assignments.service.ts:297-368 | over any run of calls one at a time that keeps the assignment, its status never goes back: opened stays visible and released grades stay released |
| RaceRuns.StatusGoesBackExactlyWhen | apps/api/src/modules/assignments/assignments.service.ts:355-368 | with overlapping calls a step takes a status back if and only if it saves an edited or refreshed assignment whose status the stored one has passed |
| RaceRuns.StatusStandsUnlessTakenBack | apps/api/src/modules/assignments/assignments.service.ts:297-368 | over every interleaving without such a save the status of an assignment that stays never goes back |
| Visibility.ListedIsOpenableWithVisibleStatus | apps/api/src/modules/assignments/assignments.service.ts:206-221 | for a plain student the list shows exactly what can be opened and was stored with a visible status |
| Visibility.ListAndViewDisagreeExactlyWhen | apps/api/src/modules/assignments/assignments.service.ts:769-798 | list and view disagree if and only if the assignment is a grader's own hidden one or one whose start has passed unnoticed |
| Visibility.AnUnseenStartOpensBeforeItIsListed | apps/api/src/modules/assignments/assignments.service.ts:206-247 | list and view agree before the start; once the clock passes it a member can open what is not listed |
| Visibility.DeadlinesAreTheActivePart | apps/api/src/modules/assignments/assignments.service.ts:572-595 | the deadlines list is the active part of the list |
| Visibility.PublishNotifiesWhomItAdmits | apps/api/src/modules/assignments/assignments.service.ts:342-353 | publishing a batch-targeted assignment notifies exactly the enrolled students it admits |
| Visibility.LeavingEndsAccess | apps/api/src/modules/classrooms/classrooms.service.ts:198-206 | a removed student can open none of the classroom's assignments and is notified of none that is batch-targeted |
| ClassroomsService.Service.Create | apps/api/src/modules/classrooms/classrooms.service.ts:27-53 | creates the classroom or changes nothing and reports its refusal |
| ClassroomsService.Service.Update | apps/api/src/modules/classrooms/classrooms.service.ts:106-153 | adds members in two loops, sets the professor and the count, or changes nothing |
| ClassroomsService.Service.PushStudents | apps/api/src/modules/classrooms/classrooms.service.ts:119-126 | the loop appends everyone new, or fails when one is a grader |
| ClassroomsService.Service.PushGraders | apps/api/src/modules/classrooms/classrooms.service.ts:130-140 | the loop appends everyone new, or fails with the first refusal in order |
| ClassroomsService.Service.DropProfessor | apps/api/src/modules/classrooms/classrooms.service.ts:177-189 | removes the professor and recounts, or changes nothing |
| ClassroomsService.Service.DropStudent | apps/api/src/modules/classrooms/classrooms.service.ts:191-208 | removes the student from the classroom and its batches, or changes nothing |
| ClassroomsService.Service.DropGrader | apps/api/src/modules/classrooms/classrooms.service.ts:210-218 | takes a grader out and recounts, or changes nothing |
| ClassroomsService.Service.AddStudentsToBatch | apps/api/src/modules/classrooms/batches.service.ts:93-106 | appends the new members in a loop, or changes nothing |
| ClassroomsService.Service.EditBatch | apps/api/src/modules/classrooms/batches.service.ts:73-91 | renames and replaces members, or changes nothing |
| ClassroomsService.Service.DropBatch | apps/api/src/modules/classrooms/batches.service.ts:120-134 | removes an untargeted batch, or changes nothing |
| ClassroomsService.Service.EditAssignment | apps/api/src/modules/assignments/assignments.service.ts:249-287 | persists a due time transition, then updates dates and merged targeting or refuses |
| ClassroomsService.Service.MoveAssignment | apps/api/src/modules/assignments/assignments.service.ts:355-368 | persists a due time transition, then moves an assignment from one status to another or refuses |
| CredentialRuns.TokensOverEveryRun | apps/api/src/modules/auth/email-verification.service.ts:90-107 | over every interleaving, account edits split into load and save included, each user has at most one unused token per kind, used tokens stay used with their owner and deadline, addresses stay unique and accounts keep their origin |
| CredentialRuns.VerificationTimeMovesExactlyWhen | apps/api/src/modules/users/users.service.ts:364-441 | a verified address loses or changes its first time if and only if an account loaded with another stamp is saved |
| CredentialRuns.AnEditTakesTheVerificationBack | apps/api/src/modules/users/users.service.ts:364-441 | a run in which a verification link is followed with success and a profile edit loaded before it leaves the address unverified |
| CredentialRuns.EachLinkWorksOnce | apps/api/src/modules/auth/email-verification.service.ts:189-201 | however many requests present one link, at most one is let through |
| CredentialRuns.OnlyOwnersChangePasswords | apps/api/src/modules/auth/password-reset.service.ts:133-187 | a step changes an existing account's password if and only if it redeems a live reset link of that account with another one, or saves a profile update that sent another one, which only the owner's can; names change by saves only |
| CredentialRuns.PasswordsStand | apps/api/src/modules/auth/auth.service.ts:104-143 | over a run with no such step the password stands, whoever registers, verifies or asks for links |
| CredentialRuns.RegisteringAgainTouchesNoAccount | apps/api/src/modules/auth/auth.service.ts:122-143 | a registration for a taken address leaves every account exactly as it was |
| CredentialRuns.LoginMeans | apps/api/src/modules/auth/auth.service.ts:35-69 | a log-in succeeds if and only if the address has an active, verified account with that password, and reports an unverified address only past the password check |
| CredentialRuns.ResetThenLogin | apps/api/src/modules/auth/password-reset.service.ts:157-187 | after a redeemed reset the account logs in with the new password and no other, if and only if it is active |
| CredentialRuns.SignUpVerifyLogin | apps/api/src/modules/auth/email-verification.service.ts:168-211 | sign-up is closed to log-in until its link is followed, open afterwards, and the link is used up |
| CredentialsService.TheFirstPasswordStands | apps/api/src/modules/auth/auth.service.ts:92-143 | after two registrations of one address and the second link, a password logs in if and only if it is the first form's, and the first link is dead |
| CredentialRuns.LogInOverARun | apps/api/src/modules/auth/auth.service.ts:35-69 | over any run without a password change, a password logs in to an account at the end if and only if it was the account's at the start and the account ends active and verified |
| CredentialsService.RedemptionSucceedsExactlyWhen | apps/api/src/modules/auth/email-verification.service.ts:168-187 | run alone a link works if and only if it exists, is unused and unexpired, and its account is active |
| CredentialsService.Service.Issue | apps/api/src/modules/auth/email-verification.service.ts:90-110 | sweeps the user's live tokens of the kind and inserts one |
| CredentialsService.Service.RedeemToken | apps/api/src/modules/auth/password-reset.service.ts:133-190 | consumes the token and stamps or sets the account, or changes nothing and reports why |
| CredentialsService.Service.RequestReset | apps/api/src/modules/auth/password-reset.service.ts:49-75 | mints for an active account with a password, silently nothing otherwise |
| CredentialsService.Service.RequestVerification | apps/api/src/modules/auth/email-verification.service.ts:69-77 | mints for an active unverified account, silently nothing otherwise |
| CredentialsService.Service.Register | apps/api/src/modules/auth/auth.service.ts:104-143 | creates and mints, only mints, or only mails, by the account's state |
| CredentialsService.Service.ValidateCredentials | apps/api/src/modules/auth/auth.service.ts:35-69 | decides a log-in |
| MailJobs.RedactMailPayload | apps/api/src/modules/mail/mail-redaction.ts:43-62 | the loop yields the redacted payload and reports whether any credential was there |
| MailJobs.RedactionMeans | apps/api/src/modules/mail/mail-redaction.ts:43-67 | redaction leaves no credential, changes nothing but credential parameters, is idempotent, and is the identity if and only if there was nothing to redact |
| MailJobs.JobsOverEveryRun | apps/api/src/modules/mail/mail.processor.ts:129-215 | over every sequence of outcomes there are at most five attempts, each sends the original payload, and the stored payload is whole until the job ends and redacted after a failed end whose clean-up went through |
| MailJobs.CredentialRetainedExactlyWhen | apps/api/src/modules/mail/mail.processor.ts:191-215 | a finished job retains a credential if and only if it had one and the mail arrived or its clean-up was lost |
| MailJobs.Processor.Process | apps/api/src/modules/mail/mail.processor.ts:129-159 | sends the stored payload, scrubs on a terminal failure, throws on a transient one |
| MailJobs.Processor.HandleFailed | apps/api/src/modules/mail/mail.processor.ts:191-197 | scrubs only when the last attempt is spent |
| MailJobs.Processor.ScrubJob | apps/api/src/modules/mail/mail.processor.ts:205-215 | writes the redacted payload only when there is a credential, and swallows a failed write |
| MailJobs.Processor.Turn | apps/api/src/modules/mail/mail.processor.ts:129-197 | one turn of the queue is one attempt of the job |

## Left out

- Two mint transactions of one user at the same instant, which would each sweep before either inserts; mints are serial.
- Role changes through `UsersService.update`, whose seat check the source itself calls unserialised. `setRole` and `setAccess` are in, split into load and save; `create` and `assignOrganization` are transactions that read inside.
- One save of a loaded row by the object mapper is one statement, although it compares with the stored row before it writes; only for classrooms, whose save writes several rows, are comparison and write two steps. The checks of one classroom, batch or assignment call are one step, and so is the read it starts from; so are the checks of a resend or revoke with their load.
- Deleting users, and deleting assignments while attempts exist: the cascades are not part of the attempt model, and deleting a user leaves a classroom's count stale.
- The invite's copy of names, its listing, preview and mails.
- InviteProtocol.ClaimsAreSafeOverEveryRun: asks for one user's claims in sequence, because two in flight break it (`SecondClaimInFlightMovesASettledMember`), and for no staff steps on accounts, because staff may demote, move and rewrite accounts; attribution and conservation of rows hold without either (`RowsAreAttributedOverEveryRun`).
- InviteSeats.SeatBoundOverEveryRun: asks that no saved invite or account puts back a seat in a full organization and that no cap is set below use, because each breaks the bound (`StepKeepsBoundExactlyWhen`).
- InviteProtocol.EachInviteIsRedeemedAtMostOnce: asks that no save of a resend makes a spent invite pending, because that allows a second redemption (`ARevivedInviteIsRedeemedTwice`); `RedemptionsOverEveryRun` counts redemptions without it.
- CredentialRuns.TokensOverEveryRun: does not keep the first verification time, because a stale account edit changes it (`VerificationTimeMovesExactlyWhen` says exactly when).
- Totals.SubmittingAwardsNothing: is about a submission that runs alone, because a grade in between is taken back (`TrackingKeepsTheGradeExactlyWhen` says exactly when).
- Totals.RecomputedTotalIsTheGradebookSum: is about calls that run alone; `GradingRuns.TotalsOverEveryRun` is its form over every interleaving.
- Gamification.StreaksMeanWhatTheySay: takes each event's local date as given, non-decreasing per user and from year 100 on, since the meaning fails for other orders (`StreaksNeverOverstate` covers them); the time-zone lookup is not modelled.
- Rollups.RollupIsTheGradebookSum: points are reals, so floating-point rounding is not modelled.
- ItemRuns.PapersStayWellFormed: `createItem` for a coding item is one step, although the source imports the problem and saves the item in two; a points edit between them is not modelled, nor are two concurrent updates of one item.
- ClassroomStructure.StructureOverEveryRun: runs calls one at a time; `RaceRuns.StructureOverEveryInterleaving` runs their loads, comparisons and saves in any order, with exact guards.
- ClassroomStructure.StatusNeverGoesBack: runs calls one at a time; `RaceRuns.StatusGoesBackExactlyWhen` is the step that breaks it otherwise.
- The points versions in `GradingCalls` (`writes`, `drops`, `basis`) are bookkeeping the source does not store.
- In the attempt model a request judges the attempt row as it stands at the judging step, where the source judges the one it loaded just before, and the reads before a saved answer are one step; no stated property turns on either.
- AttemptRuns.AttemptsOnlyEnd: whether a caller may see the assignment at all is left to the visibility model; a request refused there never arrives.
- The order in which a query returns unordered rows; display order is the stored order of items.
- Problem templates, languages, test cases, cloning and judging of code.
- Unique course ids and titles of classrooms, assignment quotas, module and feature access, and authorization by rank over other users (`assertAssignableRole`, `assertCanToggleAccess`).
- Hash functions and random tokens, which are injective constructors and fresh values; the transports, templates, rate limits and back-off of mail.
- Jobs the queue fails on its own account, by stalling; only a failed event without its job is modelled.
- Who may call grading and item authoring (`assertStaffOrGrader`), and the notifications they send; for classrooms, batches, targeting and visibility the authorization is modelled.
- HTTP controllers, validation of request shapes, exceptions as text, the web application, the AI and billing modules, and seeds.
