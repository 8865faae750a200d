# License lifecycle: a verified model

The license manager sells subscription plans, each a pool of licenses that are handed to learners. This project models
that life cycle: assigning, automatically applying, activating, revoking, provisioning, auto-scaling, freezing, renewing,
transferring, retiring and expiring. It proves the facts the service relies on but checks in no single place, such as
"a learner never holds two licenses of a plan" although the bulk writes skip `License.clean()`.

Verify everything with `dafny verify dfyconfig.toml`.

## How the model is built

- `Licensing.dfy` holds the tables. Rows are values; `Database` is the object whose tables the operations change.
- `Lifecycle.dfy` is the state machine: an `Event` for each committed operation, `Step` for what one event does, `History`
  for whole runs. The methods of `Assignment`, `Activation`, `Revocation`, `Freezing`, `RenewalProcessing`,
  `Provisioning`, `AutoScaling` and `Retirement` follow the source's control flow and are proved to make exactly these
  steps, so what is proved of histories holds of them.
- `Provisioning.dfy` also has a finer machine, in which provisioning tasks, locked assignments and other requests
  interleave between batches, and tasks may fail at any point and retry.
- `RenewalChains.dfy` treats renewal records as links between plans; `Expiration.dfy` walks those links.
- `Paging.dfy` is keyset paging over a shrinking set; `Retirement.dfy` drains the pages first and `Notices.dfy` marks
  rows between pages (one model for both mail commands, which differ in the filter and the marked column).
- `Transfer`, `AutoScaling`, `UtilizationNotices`, `Matching`, `EnrollmentBatches` and `AssignmentBatches` model the
  remaining jobs and the two scripts.
- `Collections.dfy` holds facts about lists and sets.

## Assumptions

- Time is an integer, and a run of a command or a request sees one `now`.
- Emails are lower-case already: `_assign` lower-cases its input and the trim step depends on it.
- Every transaction or request is one atomic step, except provisioning, which is one step for each batch.
- Acquiring the plan lock is one atomic test-and-set, and the lock does not expire. (The code reads the cache and then
  writes it, at `license_manager/apps/api/utils.py:320-323`.)
- The synchronous branch of `provision_licenses` does not run while a task for the same plan is under way, and
  `desired_num_licenses` does not change during the interleavings considered.
- New primary keys are keys that no stored row has. Keys are naturals in key order.
- A query without an ORDER BY returns its rows in any order (`Collections.Query`). A transfer job is given some order
  that the database returns rows in, the same for the same set of rows. `.first()` on such a query is the least key,
  because Django orders it by primary key.
- Percentages are exact. The Python code uses floats, where `ceil(100 * (7 / 100))` is 8; the model has 7.
- A missing row that the source would raise `DoesNotExist` for is a precondition (`plan in db.plans`).

## What the model found

- Renewal records accepted one after the other can form a cycle, and then `future_renewals` never ends:
  `RenewalChains.CreatesCanMakeACycle`. The walk ends exactly from plans that are not on a cycle
  (`FutureWalkEndsIff`), and a new link keeps the graph acyclic exactly if its target does not already lead back
  (`LinkKeepsAcyclicIff`).
- A freeze, and the retirement of expired licenses, lower the license total and can leave more revocations used than
  the cap allows (`FreezeCanOverdrawCap`, `RetirementCanOverdrawCap`). `FreezeKeepsCapIff` and `RetirementKeepsCapIff`
  give the exact conditions on the tables before; without these two operations no history overdraws the cap.
- Renewing into a plan that holds licenses renewed into before can violate the one-to-one `renewed_to` column, and then
  the transaction is rolled back. From the tables before: some choice of rows clashes exactly if there is something to
  copy and a license not renewed now points into the plan (`ClashPossibleIff`), and every choice does exactly if fewer
  licenses are unclaimed than have to be copied (`ClashCertainIff`, with an input in `RenewalCanBeForcedToClash`).
- A dry run of a transfer job lists the same sequence as a real run exactly if no eligible license is listed in two
  chunks; an id repeated in a later chunk is reported twice and moved once (`RepeatedIdIsReportedTwice`).
- A transfer can give a learner two active licenses of the new plan (`TransferCanBreakUnique`). It keeps the table unique
  exactly if no learner it moves already holds an active license there (`TransferKeepsUniqueIff`).
- Cleaning up duplicates fails when assigned licenses with and without an assignment date must be sorted together: the
  default `datetime.min` is naive and cannot be compared with a stored date (`UndatedDuplicateCannotBeSorted`). In a
  table where assigned licenses are dated this cannot happen (`TidyCleanUp`), and the life cycle keeps tables that way.
- `get_licenses_exceeding_purge_duration` reads the last key of a page from the database again. That is right only
  because `chain(*pages)` runs the generator to its end before the first row is changed; the model does the same.
- The docstring of `clear_pii` says it removes the email and the LMS user id; the code removes the email only. So a
  revoked license of a retired user keeps the user's id (`RetiredUserIsForgotten`). The model follows the code.
- `check_missing_licenses` is documented to look for a valid license, but looks at licenses of any status. The model
  follows the code.
- `get_email_chunks` of the assignment script can send an empty chunk (`EmptyChunkIsSent`). It does so exactly if a run
  of valid rows for one plan has a length divisible by the chunk size and a row for another plan follows; the last chunk
  of a file that was read to its end is never empty (`AssignmentChunks`).

## Model

| member | source | states |
|---|---|---|
| Licensing.Database.Save | license_manager/apps/subscriptions/models.py:1322-1345 | saving stores the row exactly when no other assigned or activated license of the plan has its email; a refused save changes nothing |
| Licensing.SaveKeepsUniqueIff | license_manager/apps/subscriptions/models.py:1322-1338 | the check in `clean()` is neither too weak nor too strong: the table stays unique if and only if it passes |
| Licensing.ResetForgets | license_manager/apps/subscriptions/models.py:1383-1398 | a reset forgets an assignment, activation, revocation or scrub that went before, and of an automatic application keeps only its flag |
| Licensing.ResetIsLikeNew | license_manager/apps/subscriptions/models.py:1383-1398 | only the marks of sent mails, the renewal link and the auto-apply flag tell a reset license from a new one |
| Licensing.AutoApplyIsAssignAndActivate | license_manager/apps/api/v1/views.py:196-203 | applying a license automatically writes what assigning and then activating it at once would write, plus the flag |
| Lifecycle.StepKeepsSound | license_manager/apps/subscriptions/models.py:1322-1345 | each operation, including the bulk writes that skip `clean()`, keeps one active license at most for a learner and plan, and keeps unassigned licenses nameless and active ones named and dated |
| Lifecycle.HistoryKeepsUnique | license_manager/apps/api/v1/views.py:1033-1055 | the same over every history of assign, auto-apply, clean-up, activate, revoke, reset, scrub, increase, renew, freeze and retire steps |
| Lifecycle.NoTwoHolders | license_manager/apps/api/v1/views.py:1033-1055 | the same told by status: in no state of a history do two assigned or activated licenses of one plan name the same learner |
| Lifecycle.ReachableKeepsUnique | license_manager/apps/subscriptions/models.py:1322-1345 | what a multi-step operation reaches (bulk revoke, revoke all, retirement) is unique if its start was |
| Lifecycle.StepTotals | license_manager/apps/subscriptions/models.py:803-816 | which operations keep the license total of every plan, which can only raise it, and by how much an increase raises it |
| Lifecycle.RevokeTotals | license_manager/apps/subscriptions/api.py:67-70 | a revoked license and its replacement leave every total as it was |
| Lifecycle.RevokeInFields | license_manager/apps/subscriptions/api.py:44-70 | a revocation in the fields of the tables: the status and date it writes, the blank license that replaces it, and the charge of one for an activated license under a cap |
| Assignment.TrimAssociated | license_manager/apps/api/v1/views.py:968-989 | what remains of the request is exactly the learners without an active license in the plan, once each; one entry is reported for each license found |
| Assignment.AssociatedAreServed | license_manager/apps/api/v1/views.py:975-989 | in a table without duplicates the entries reported as already associated number exactly the requested learners who were served before |
| Assignment.AssignNewLicenses | license_manager/apps/api/v1/views.py:1033-1055 | pairs learners with distinct unassigned licenses of the plan, fills in exactly the bulk-updated fields, and leaves every other row alone |
| Assignment.Assign | license_manager/apps/api/v1/views.py:1128-1243 | refuses, changing nothing, exactly when more distinct unserved learners are asked for than unassigned licenses exist; otherwise makes one assign step for all of them and no one else |
| Assignment.AssignServesEveryone | license_manager/apps/api/v1/views.py:1145-1171 | afterwards each requested learner holds exactly one active license of the plan, and no other learner or plan is affected |
| Assignment.AssignmentInFields | license_manager/apps/api/v1/views.py:1041-1047 | the fields that an assignment writes on each license, which was unassigned and of the plan |
| Assignment.AutoApplicable | license_manager/apps/subscriptions/models.py:284-297 | the auto-applied, active, current plan of the agreement that started last, or nothing if there is none |
| Assignment.AutoApply | license_manager/apps/api/v1/views.py:181-306 | told by the fields of the tables: no plan exactly if none of the agreement is active, current and auto-applied, and else the one that started last; refused exactly if the learner has a revoked license of it; applied only if the learner has no assigned or activated one, to the first unassigned license, whose fields afterwards are listed; that save is never rejected |
| Activation.LicenseForActivation | license_manager/apps/subscriptions/models.py:1575-1615 | which error is raised when, which license is kept, and that the table after it is one clean-up step |
| Activation.CleanUpDuplicates | license_manager/apps/subscriptions/models.py:1617-1651 | keeps an activated license if there is one and else one assigned last, resets all others, and fails exactly when dates are mixed |
| Activation.CannotSortIffMixed | license_manager/apps/subscriptions/models.py:1642-1646 | sorting fails exactly if no license is activated, one has an assignment date and another has none |
| Activation.CleanUpLeavesAtMostOne | license_manager/apps/subscriptions/models.py:1592-1651 | from any table, duplicates or not, no active license of that learner and plan but the kept one is left, totals and other learners are untouched, and activating it would pass `clean()` |
| Activation.CleanUpInFields | license_manager/apps/subscriptions/models.py:1592-1651 | a clean-up resets, field by field, every license of the learner in the plan that is neither revoked nor the kept one, and changes no other row |
| Activation.TidyCleanUp | license_manager/apps/subscriptions/models.py:1617-1651 | where assigned licenses are dated and unassigned ones nameless, the clean-up cannot fail and leaves exactly the kept license active |
| Activation.UndatedDuplicateCannotBeSorted | license_manager/apps/subscriptions/models.py:1642-1646 | two assigned duplicates, one without a date, for which the clean-up fails |
| Activation.Activate | license_manager/apps/api/v1/views.py:1903-1918 | every outcome with its condition; the save that activates is never rejected by `clean()`; an activated license is returned unchanged, and every answer but an activation changes nothing |
| Activation.NotFoundIff | license_manager/apps/subscriptions/models.py:1580-1590 | not found exactly if the learner has no license with this key in a plan that is active, has begun and has not ended |
| Activation.AssignedKeyActivates | license_manager/apps/subscriptions/models.py:1575-1615 | assignment and activation joined: in a table without duplicates the key in the answer of an assignment activates exactly the license assigned with it, with the user and the date, and changes nothing else |
| Activation.OtherKeyIsNotFound | license_manager/apps/subscriptions/models.py:1580-1590 | any other key that the learner did not hold before the assignment is not found and changes nothing |
| Revocation.RevocationsAllowedIsLeast | license_manager/apps/subscriptions/models.py:733-745 | the allowance is the least whole number not below the given percentage of the total |
| Revocation.TooManyIffUsedUp | license_manager/apps/subscriptions/models.py:724-745 | more than the remaining revocations are asked for exactly if the cap is on and all but one of them would already use it up, in whole numbers of the tables |
| Revocation.RevokeLicense | license_manager/apps/subscriptions/api.py:37-75 | refused exactly for an activated license of a capped plan with 100 * revocations used >= licenses * percentage, or for a license that is unassigned or revoked, changing nothing; otherwise one revoke step that adds one new unassigned license |
| Revocation.StepCharges | license_manager/apps/subscriptions/api.py:44-65 | no operation changes the settings of the cap, and none uses up more than one revocation, or one when none remains |
| Revocation.HistoryKeepsCap | license_manager/apps/subscriptions/api.py:44-70 | no history without freezes and expiry retirements takes a plan's revocations above what its cap allows, whatever other plans do; this includes plans that a renewal creates on the way |
| Revocation.RevokingAssignedIsFree | license_manager/apps/subscriptions/api.py:47-65 | revoking an assigned license leaves the revocations that remain unchanged, for every plan |
| Revocation.ChooseToRevoke | license_manager/apps/api/v1/views.py:1335-1354 | nothing exactly if the learner has no active license; otherwise the first in the order of revocation: assigned licenses before activated ones, each kind in key order |
| Revocation.RevokeByEmailAndPlan | license_manager/apps/api/v1/views.py:1329-1363 | not found exactly without an active license; otherwise the first license in the order of revocation is refused, changing nothing, exactly if it is activated and 100 * revocations used >= licenses * percentage under a cap, and else revoked in one step |
| Revocation.BulkRevoke | license_manager/apps/api/v1/views.py:1474-1509 | refused as a whole exactly when the cap is on and 100 * (revocations used + length of the request - 1) >= licenses * percentage; otherwise the k-th request for a learner revokes the k-th license of the learner's order of revocation, or fails as not found if there is none. Exactly these licenses are revoked, once each; every other row is as before; one new unassigned license of the plan came for each; exactly the activated ones are charged |
| Revocation.ChargedIffNoneAssigned | license_manager/apps/api/v1/views.py:1344-1354 | a request costs a revocation exactly if as many requests for the learner as there were assigned licenses came before it |
| Revocation.BulkRevokeSparesOthers | license_manager/apps/api/v1/views.py:1487-1509 | every request is a success or a failure, and no learner of another plan, and none who is not named, loses a license |
| Revocation.BulkRevokeWithinCap | license_manager/apps/api/v1/views.py:1479-1509 | after a processed request the plan is within its cap, even if it was not before |
| Revocation.RevokeAll | license_manager/apps/api/tasks.py:584-599 | revokes every active license of the plan or none; it fails exactly if the activated licenses outnumber the revocations that remain |
| Revocation.RevokeAllFitsIff | license_manager/apps/api/tasks.py:584-599 | a whole plan can be revoked exactly if it has no activated license, no cap, or 100 * (revocations used + activated licenses - 1) < licenses * percentage |
| Revocation.RevokeAllByStatus | license_manager/apps/api/tasks.py:584-599 | afterwards each assigned or activated license of the plan is revoked, with the date, and every other license is as before |
| Freezing.DeleteUnusedLicenses | license_manager/apps/subscriptions/api.py:261-274 | refused, changing nothing, exactly when the plan cannot be frozen; otherwise one freeze step |
| Freezing.FreezeLosesNobody | license_manager/apps/subscriptions/api.py:272-274 | only unused licenses of that plan go; every learner keeps the same licenses, and no link to a deleted license stays |
| Freezing.FreezeKeepsCapIff | license_manager/apps/subscriptions/api.py:272-274 | a freeze keeps a plan within its cap if and only if the revocations used fit the allocated licenses |
| Freezing.FreezeCanOverdrawCap | license_manager/apps/subscriptions/api.py:272-274 | a plan within its cap that a freeze takes over it |
| RenewalProcessing.RenewSubscription | license_manager/apps/subscriptions/api.py:78-161 | raises exactly when a check fails, with that check's error (each stated on counts and statuses of the tables), and then changes nothing; otherwise the whole transaction happens if the rows chosen do not clash, and none of it if they do |
| RenewalProcessing.PrecheckByStatus | license_manager/apps/subscriptions/api.py:90-131 | which of the three errors is raised, by the number of licenses whose status the record asks to copy, the status of the licenses the future plan has, and their number |
| RenewalProcessing.CopyLicenses | license_manager/apps/subscriptions/api.py:185-204 | the loop over the zipped lists writes each original's data into its own target, sets the original's link, and touches nothing else |
| RenewalProcessing.ToggleAutoApply | license_manager/apps/subscriptions/api.py:296-315 | auto-apply goes off for every plan of the agreement and on for the chosen one; nothing else changes |
| RenewalProcessing.ToggleChoosesOne | license_manager/apps/subscriptions/api.py:296-315 | afterwards the chosen plan is the only auto-applied plan of its agreement |
| RenewalProcessing.RenewalIsStep | license_manager/apps/subscriptions/api.py:133-161 | a processed renewal is one renew step of the life cycle, so the history results cover it |
| RenewalProcessing.RenewalLosesNobody | license_manager/apps/subscriptions/api.py:179-204 | every original to copy is linked to a license of its own in the future plan with the same status, email, LMS id and key, and no two to the same one; licenses of other plans that are not copied do not change |
| RenewalProcessing.RenewalServesByStatus | license_manager/apps/subscriptions/api.py:179-204 | each license of the prior plan that is activated (unless nothing is copied) or assigned (if both kinds are) gets a license in the future plan with its status, email, user and key, dated as the copy does; it changes in its link only, and every other license of the prior plan not at all |
| RenewalProcessing.RenewalFillsPlan | license_manager/apps/subscriptions/api.py:133-148 | the future plan ends with exactly the requested number of licenses, as many allocated as were copied, and the rest unassigned |
| RenewalProcessing.RenewalOfPlans | license_manager/apps/subscriptions/api.py:98-113 | no plan changes in anything but auto-apply; a plan that the renewal creates takes dates from the record and the rest from the prior plan, with no revocation used |
| RenewalProcessing.RenewalMovesAutoApply | license_manager/apps/subscriptions/api.py:150-156 | if the prior plan was auto-applied, afterwards the future plan is the only such plan of the agreement, or none is if the record says so; otherwise, and for other agreements, nothing changes |
| RenewalProcessing.RenewedToUniqueIffNoClash | license_manager/apps/subscriptions/models.py:1291-1297 | for the rows a renewal has chosen, `renewed_to` stays one-to-one if and only if no license that is not being renewed points at one of them |
| RenewalProcessing.ClashPossibleIff | license_manager/apps/subscriptions/api.py:185-204 | before the call: some choice of rows would repeat a `renewed_to` if and only if there is something to copy and a license that is not renewed now points at a license of the future plan |
| RenewalProcessing.ClashCertainIff | license_manager/apps/subscriptions/api.py:185-204 | before the call: every choice of rows would, if and only if fewer licenses of the topped-up plan are unclaimed than there are originals to copy |
| RenewalProcessing.CertainClashRepeats | license_manager/apps/subscriptions/api.py:185-204 | in that case `renewed_to` repeats however the copy is carried out |
| RenewalProcessing.RenewalCanBeForcedToClash | license_manager/apps/subscriptions/api.py:185-204 | tables that pass every check and for which every choice clashes |
| RenewalProcessing.RenewalKeepsGraph | license_manager/apps/subscriptions/api.py:158-161 | however the call ends, renewal records stay one-to-one and acyclic |
| RenewalProcessing.RepeatRaisesOrChangesNothing | license_manager/apps/subscriptions/api.py:115-131 | repeating a processed renewal at once raises if and only if something was copied; in any case no license changes |
| RenewalChains.FutureRenewals | license_manager/apps/subscriptions/models.py:846-865 | from a plan that is not on a cycle the walk ends, repeats no record and stops only where no renewal follows |
| RenewalChains.PriorRenewals | license_manager/apps/subscriptions/models.py:832-844 | the backward walk ends, repeats no record, and lists the chain oldest first from a plan without an origin |
| RenewalChains.FutureWalkEndsIff | license_manager/apps/subscriptions/models.py:846-865 | the forward walk has an end if and only if the plan is not on a cycle |
| RenewalChains.PriorWalkEndsIff | license_manager/apps/subscriptions/models.py:832-844 | the backward walk has an end if and only if the plan is not on a cycle |
| RenewalChains.WholeChain | license_manager/apps/subscriptions/models.py:832-865 | walking forward from the oldest ancestor gives the prior renewals followed by the future ones, and nothing else |
| RenewalChains.CreateRenewal | license_manager/apps/api/serializers.py:996-1031 | found exactly if a record has the same two plans, conflicted exactly if none does but one shares a plan, otherwise created; the first matching or conflicting record by key is returned, and only a creation stores anything, namely the unprocessed record |
| RenewalChains.MatchesByPlans | license_manager/apps/api/serializers.py:999-1023 | which records match exactly and which share a plan, told by the two plan columns |
| RenewalChains.AddKeepsOneToOneIff | license_manager/apps/subscriptions/models.py:1061-1083 | a new record keeps both one-to-one columns if and only if no record shares its prior plan or its non-null renewed plan |
| RenewalChains.CreatesKeepOneToOne | license_manager/apps/api/serializers.py:996-1031 | over any series of creates the columns stay one-to-one and no record on file is lost or changed |
| RenewalChains.RepeatCreateFinds | license_manager/apps/api/serializers.py:999-1007 | an identical create right after returns the record on file and stores nothing |
| RenewalChains.LinkKeepsAcyclicIff | license_manager/apps/subscriptions/models.py:1061-1083 | a new link keeps the graph acyclic if and only if its renewed plan does not already lead to its prior plan |
| RenewalChains.FreshPlanKeepsGraph | license_manager/apps/subscriptions/api.py:98-113 | linking a renewal to a plan nobody refers to, as processing does, keeps the graph acyclic and one-to-one |
| RenewalChains.CreatesCanMakeACycle | license_manager/apps/api/serializers.py:1009-1031 | two accepted creates after which the forward walk has no end |
| Expiration.ExpirePlan | license_manager/apps/subscriptions/management/commands/expire_subscriptions.py:73-112 | the batches partition the plan's assigned and activated licenses, each of 100 and the last of 1 to 100; the plan is marked processed exactly if every batch succeeded |
| Expiration.ChainPlansAreAncestors | license_manager/apps/subscriptions/management/commands/expire_subscriptions.py:167-173 | the plans expired along with a last plan are the plans that lead to it, once each |
| Expiration.OneTerminalAhead | license_manager/apps/subscriptions/management/commands/expire_subscriptions.py:155-173 | a plan leads to at most one plan without a renewal, so chains of different last plans share nothing |
| Expiration.ExpireSubscriptions | license_manager/apps/subscriptions/management/commands/expire_subscriptions.py:114-177 | every outcome with its condition on the plan fields; a run expires a plan without a renewal exactly if it is in scope (in the date range and not yet processed unless forced; or listed and expired), with all plans that lead to it, none twice, and newly marks exactly the ones fully accepted; a dry run changes nothing |
| Expiration.LastPlansInScope | license_manager/apps/subscriptions/management/commands/expire_subscriptions.py:130-155 | a plan without a renewal is expired if and only if it is stored and in scope |
| Expiration.RerunExpiresTheRest | license_manager/apps/subscriptions/management/commands/expire_subscriptions.py:130-173 | the same date-range run again expires exactly the chains of those last plans whose batches were not all accepted before; after full success it expires nothing |
| Provisioning.BatchCountsTile | license_manager/apps/subscriptions/utils.py:77-91 | the batch sizes add up to the total, each lies between 1 and the batch size, and all but the last are full |
| Provisioning.BatchCounts | license_manager/apps/subscriptions/utils.py:77-91 | the loop yields full batches and then the remainder, if there is one |
| Provisioning.IncreaseNumLicenses | license_manager/apps/subscriptions/models.py:986-991 | adds that many unassigned licenses to the plan, and none for a negative number |
| Provisioning.ProvisionLicensesTask | license_manager/apps/subscriptions/tasks.py:98-119 | adds only new licenses of the plan; with `desired` set to d the total never passes max(initial, d) and is exactly that if no batch fails; without it nothing is added |
| Provisioning.RunWithLock | license_manager/apps/subscriptions/tasks.py:44-58 | deferred exactly when the lock is taken; however the task ends, the locks are as before, only new licenses of this plan have come, and a completed task leaves max(initial, desired) of them |
| Provisioning.ProvisionLicenses | license_manager/apps/subscriptions/utils.py:192-212 | with `desired` set to d, creates exactly d - count licenses at once when 0 < d - count <= 300 on a plan never frozen, leaves larger gaps to the task, and otherwise does nothing |
| Provisioning.ProvisioningIsSafe | license_manager/apps/subscriptions/tasks.py:43-59 | in every interleaving of tasks, locked assignments, failures, retries, and requests that assign automatically, clean up, activate, revoke, reset or scrub: one lock holder, never more than max(initial, `desired_num_licenses`) licenses, and exactly that many once a task has completed |
| Provisioning.OnlyHolderReleases | license_manager/apps/api/utils.py:314-334 | whenever the lock becomes free, the client that held it gave it back |
| Provisioning.ExecutionKeepsUnique | license_manager/apps/api/v1/views.py:1113-1126 | the interleavings keep one active license at most for a learner and plan |
| Paging.PageIsNextStretch | license_manager/apps/subscriptions/models.py:1546-1557 | while rows at or before the offset drop out, the next page is the next stretch of the keys that matched at the start |
| Paging.ProcessedLieBefore | license_manager/apps/subscriptions/models.py:1546-1557 | rows already passed never lie after the offset, so processing them does not disturb later pages |
| Paging.FetchPage | license_manager/apps/subscriptions/models.py:1546-1557 | the first `batch_size` matching keys after the offset, in key order |
| Retirement.DrainPages | license_manager/apps/subscriptions/models.py:1551-1557 | draining the generator gives offsets whose pages cover the matching keys, each full but perhaps the last |
| Retirement.RunPass | license_manager/apps/subscriptions/management/commands/retire_old_licenses.py:35-58 | though its pages are read only while rows drop out, a pass retires every license that matched at the start once, in key order, for every batch size |
| Retirement.RetireOldLicenses | license_manager/apps/subscriptions/management/commands/retire_old_licenses.py:33-106 | what each pass retires and what every license looks like afterwards, in terms of the tables before the run (`RetiredWhenDue` tells it by dates and statuses); no license is retired twice, and nothing is left that any pass would match |
| Retirement.MatchesWhenDue | license_manager/apps/subscriptions/models.py:1533-1541 | a pass matches a license with an email exactly if expiration, revocation or assignment date plus the purge duration of its agreement lies before now; the last two only by status and for plans that are not internal |
| Retirement.RetiredWhenDue | license_manager/apps/subscriptions/management/commands/retire_old_licenses.py:33-106 | a license with an email loses it in a run if and only if it is due by its dates, status and the `internal` exemption; what is left of it, field by field, depends on why; every other license is as before |
| Retirement.DueStaysDue | license_manager/apps/subscriptions/models.py:1533-1541 | what one run would retire, any later run would retire too |
| Retirement.PassesAreApart | license_manager/apps/subscriptions/management/commands/retire_old_licenses.py:63-90 | a pass takes exactly its own matches away from the later ones |
| Retirement.RetiringKeepsCapIff | license_manager/apps/subscriptions/management/commands/retire_old_licenses.py:45-48 | retiring one license of an expired plan keeps the plan within its cap if and only if the cap bears one license less (or as many, if it was revoked already) |
| Retirement.RetirementKeepsCapIff | license_manager/apps/subscriptions/management/commands/retire_old_licenses.py:33-106 | after the command a plan is within its cap if and only if the revocations used fit the licenses that it had before and that the first pass does not match |
| Retirement.RetirementCanOverdrawCap | license_manager/apps/subscriptions/management/commands/retire_old_licenses.py:41-48 | a plan within its cap that every run of the command takes over it |
| Retirement.RetireUser | license_manager/apps/api/v1/views.py:1976-1992 | scrubs each license with the user's id once, by life-cycle steps, and keeps every plan total; field by field, a revoked license loses its email and any other its history with the learner; other licenses do not change |
| Retirement.RetiredUserIsForgotten | license_manager/apps/api/v1/views.py:1979-1989 | none of these licenses has an email any more, and exactly the revoked ones still carry the LMS id |
| Notices.ProcessCustomer | license_manager/apps/subscriptions/management/commands/send_license_expiration_reminders.py:270-375 | every license waiting at the start (activated, of the customer, in a plan that ends in the window, without this mail) is in one batch, in key order, whatever the batch size and whichever batches fail; no batch is empty or too large; exactly the delivered ones get the mark of this mail and no other license changes; the two counts add up |
| Notices.MailedAreWaiting | license_manager/apps/subscriptions/management/commands/send_license_expiration_reminders.py:129-146 | the query finds exactly the licenses that wait, told by their status, plan and marks |
| Notices.RerunMailsTheRest | license_manager/apps/subscriptions/management/commands/send_license_expiration_reminders.py:129-146 | run again, a command mails those whose batch was not delivered, and the other command is not affected by its marks |
| Notices.NextPage | license_manager/apps/subscriptions/management/commands/send_license_expiration_reminders.py:179-192 | a page fetched after earlier batches were marked continues exactly where the last one ended |
| Notices.SendAll | license_manager/apps/subscriptions/management/commands/send_subscription_plan_expiration_emails.py:336-382 | the same accounting for the mails about expired plans, batch by batch |
| Transfer.LicenseTransferJob.constructor | license_manager/apps/subscriptions/models.py:1654-1732 | a new job has not been completed and has no results |
| Transfer.LicenseTransferJob.Process | license_manager/apps/subscriptions/models.py:1790-1827 | nothing once completed; a real run moves exactly the eligible licenses and records them; a dry run records the same ones and moves none; both record the same sequence if and only if no eligible license is listed in two chunks, all licenses are transferred, or old and new plan are the same |
| Transfer.ListsOnceIffApart | license_manager/apps/subscriptions/models.py:1781-1788 | a look lists no license twice if and only if no eligible license is listed in two chunks, whatever order the rows come in |
| Transfer.DistinctIdsReportOnce | license_manager/apps/subscriptions/models.py:1773-1788 | if the ids are distinct, or all licenses are transferred, no license is listed twice, so the dry run foretells the sequence of the real one |
| Transfer.RepeatedIdIsReportedTwice | license_manager/apps/subscriptions/models.py:1781-1788 | an input where a look does list a license twice: an id repeated in a later chunk |
| Transfer.TransferMovesOnly | license_manager/apps/subscriptions/models.py:1773-1788 | only the plan field changes and only for licenses of the old plan; transferring all empties it |
| Transfer.TransferConserves | license_manager/apps/subscriptions/models.py:1790-1827 | for each status the two plans together have as many licenses as before |
| Transfer.TransferKeepsUniqueIff | license_manager/apps/subscriptions/models.py:1804-1812 | a transfer, whose bulk update skips `clean()`, keeps one active license at most for a learner and plan if and only if no active license it moves has the email of an active license of the new plan, or the two plans are the same |
| Transfer.TransferCanBreakUnique | license_manager/apps/subscriptions/models.py:1804-1812 | a learner with a license in each plan, for whom a transfer leaves two in one |
| Collections.ChunksTile | license_manager/apps/subscriptions/utils.py:69-74 | the chunks spell out the list, and only the last may be short |
| AutoScaling.ActsIffOverThreshold | license_manager/apps/subscriptions/management/commands/process_auto_scalable_plans.py:46-53 | scaling acts exactly when 100 * allocated > threshold * total |
| AutoScaling.AddedIsTruncatedWithinLimit | license_manager/apps/subscriptions/management/commands/process_auto_scalable_plans.py:60-67 | for all settings: the number added is the increment without its fraction, or what the limit leaves if that is less |
| AutoScaling.ScaledWithinLimit | license_manager/apps/subscriptions/management/commands/process_auto_scalable_plans.py:60-70 | for all settings: total <= new total <= max(total, limit) |
| AutoScaling.AtRestIff | license_manager/apps/subscriptions/management/commands/process_auto_scalable_plans.py:42-67 | a run adds nothing if and only if the plan is empty, not over the threshold, at its limit, or too small for the increment to make one license |
| AutoScaling.RunsApproachLimit | license_manager/apps/subscriptions/management/commands/process_auto_scalable_plans.py:46-70 | with the allocation fixed, a run that adds a license strictly shortens the way to the limit |
| AutoScaling.RunsComeToRest | license_manager/apps/subscriptions/management/commands/process_auto_scalable_plans.py:46-70 | repeated runs reach a fixed point, in at most as many runs as licenses were missing to the limit |
| AutoScaling.ScaleAgreement | license_manager/apps/subscriptions/management/commands/process_auto_scalable_plans.py:31-80 | the branch taken for the agreement's latest current plan, each with its exact condition, including when a missing setting raises, and the new total; a dry run changes nothing |
| AutoScaling.TurnInFields | license_manager/apps/subscriptions/management/commands/process_auto_scalable_plans.py:42-70 | each outcome of a turn told by the agreement's own fields in whole numbers, and what is added |
| AutoScaling.TurnIsOnCurrentPlan | license_manager/apps/subscriptions/management/commands/process_auto_scalable_plans.py:31-36 | if the agreement has an active plan that has begun and not ended, the turn is about such a plan, and none of them started later |
| AutoScaling.ScaleAll | license_manager/apps/subscriptions/management/commands/process_auto_scalable_plans.py:27-80 | every agreement with auto-scaling enabled gets one turn, each judged by the totals at the start as if it were the only one; the final totals; the command raises exactly at the first turn that misses a setting, and keeps what was added before |
| UtilizationNotices.HighestReached | license_manager/apps/subscriptions/models.py:899-917 | the highest threshold reached, or nothing exactly if none is or the plan is empty |
| UtilizationNotices.NotificationLog.constructor | license_manager/apps/subscriptions/models.py:518-556 | no notification is on record at first |
| UtilizationNotices.NotificationLog.CheckUtilization | license_manager/apps/api/tasks.py:931-981 | announces exactly when the highest threshold is new for the plan and the mail goes out; a failed mail leaves no record |
| UtilizationNotices.AnnouncementsIncrease | license_manager/apps/api/tasks.py:941-964 | over any run of checks, with any license changes in between, the thresholds announced for a plan strictly increase |
| UtilizationNotices.SourceThresholdsAreWellFormed | license_manager/apps/subscriptions/constants.py:147-151 | the configured thresholds descend and have notification types of their own |
| UtilizationNotices.SourceThresholdsInWholeNumbers | license_manager/apps/subscriptions/models.py:899-917 | with the configured thresholds: the first exactly if active >= total, the second exactly if less than that but 4 * active >= 3 * total |
| Matching.CheckMissingLicenses | license_manager/apps/api/utils.py:139-227 | the memoised loops return the report of the form without a memo, over every distinct learner and course, name a pair missing exactly if it got no entry, and ask the catalog exactly once for the plan of each license of the learners, in the plans looked at, with each course |
| Matching.ReportPerPair | license_manager/apps/api/utils.py:187-219 | the entries reported for a learner and course are the plain ones for this pair, and none for pairs not asked about |
| Matching.PlainEntriesAreMatches | license_manager/apps/api/utils.py:189-219 | there is an entry for a license exactly if its plan contains the course, with a key for activation exactly if it is assigned |
| Matching.PlainEntriesInOrder | license_manager/apps/api/utils.py:180-189 | one entry for each such license, latest expiration first |
| Matching.ReportSays | license_manager/apps/api/utils.py:180-219 | an entry is reported if and only if its license, of that learner and in a plan looked at, gives access to a course asked about; it brings the key exactly if the license is assigned |
| Matching.MissingSays | license_manager/apps/api/utils.py:216-227 | a course is reported missing for a learner if and only if it was asked about and no license of the learner in the plans looked at covers it |
| EnrollmentBatches.EnrollmentChunks | scripts/local_license_enrollment.py:120-152 | for each course the chunks spell out its emails in the order of the rows; a chunk has one course, 1 to `chunk_size` emails and the next id; only the last of a course may be short, so a size below 1 gives one chunk for each course |
| EnrollmentBatches.TakeRow | scripts/local_license_enrollment.py:138-148 | between rows every open bucket is shorter than the chunk size, every chunk sent so far is full, and what was sent and what waits account for all rows read |
| EnrollmentBatches.SendFull | scripts/local_license_enrollment.py:141-148 | the scan after a row leaves no open bucket of the full size, and loses nothing |
| AssignmentBatches.AssignmentChunks | scripts/local_assignment_multi.py:156-210 | the chunks spell out the valid rows in order, tagged by plan, with consecutive ids and bounded sizes; some chunk is empty if and only if a run of rows for one plan has a length divisible by the chunk size and another plan follows; the last chunk of a whole file is not empty; an unknown university stops the generator with less than one chunk unsent |
| AssignmentBatches.FullRunBeforeAnother | scripts/local_assignment_multi.py:191-207 | two rows for two plans and chunks of one row meet this condition |
| AssignmentBatches.EmptyChunkIsSent | scripts/local_assignment_multi.py:191-207 | for these rows the generator sends an empty chunk |

## Left out

- HTTP handling, serializer field validation, permissions, throttling, admin pages and pagination of responses: plumbing around the state changes.
- Braze, Segment, enterprise, catalog and storage clients: their answers are arbitrary values. A `ValueError` raised by the mail client itself, which would end a mail command between batches, is not covered; the one for a missing campaign setting is.
- Row history, signals, license action records and the idempotency guard for post-revocation work: side records that do not influence licenses.
- Expiry of the cache lock, the gap between its read and its write, a task that is killed before it can release the lock, and synchronous provisioning beside a live task: outside the atomic-step assumption.
- Float rounding in the revocation cap and in auto-scaling: exact arithmetic instead.
- In-memory instances: rows are values in tables, so two Python objects for one row, or a stale one, do not appear. In particular the plan object that `bulk_revoke` keeps across its loop is always up to date here.
- License sources and the branch of `_assign` for Salesforce ids, which pairs emails and ids with `zip` and so drops emails without an id.
- The `DatabaseError` branches of assign and auto-apply: the rollback belongs to the database.
- The payload filters of `bulk_revoke` that turn a filter into a list of emails; the model starts from the list.
- Email rewrites and transfers as steps of a history: neither checks uniqueness. The exact condition for a transfer is proved.
- Freezes and expiry retirements as steps of the revocation-cap run: both can lower the total. Their exact conditions are proved instead.
- Changes of `desired_num_licenses`, freezes, renewals, auto-scaling of the same plan and expiry retirements during a provisioning task.
- Calendar arithmetic for the windows of the mail commands and for the purge duration: the windows are parameters.
- MySQL checks `renewed_to` row by row; here the constraint is checked once, at the end of the transaction.
- An empty plan id in the mapping of the assignment script: plan ids are always truthy here.
- Resuming by emails already processed, CSV parsing and token fetching in the scripts; the total kept by `get_licenses`; the mail about initial utilization.
