# HawkView console: models of its asynchronous protocols and evidence readers

HawkView is a console for managed-service providers. Much of its correctness is about what may still happen
after an `await`: accounts switch, panels unmount, replies are lost and newer requests overtake older ones while
a continuation waits. The rest is about not claiming more than was read: a plan is what was reviewed, "healthy"
hides no gap, an empty list is not a failed read. This project models those parts in Dafny and proves what every
schedule and every input keeps.

## How it is organised

Each asynchronous component has two modules. The first (`PasswordForm`, `AuthProvider`, `ControlHook`,
`FleetReload`, `ExportButton`, `SessionHistory`) holds the component's refs as a class, one method per stretch of
code between two awaits, each proved to compute a function of the old refs. The second (`PasswordRuns`,
`AuthRuns`, `ControlRuns`, `FleetRuns`, `ExportRuns`, `HistoryRuns`) runs those functions under an adversarial
scheduler that picks any next event, records a history that no step reads, and proves the results for every
finite sequence of events. `PasswordEffects` and `AuthEffects` say what each single event does, from what a person
or the history can tell. `ControlView` holds the pure part of the collection control.

- `PasswordForm`, `PasswordRuns`, `PasswordEffects`: the password-change form, whose own sign-out must not disown it.
- `TransitionGuard`, `AuthProvider`, `AuthRuns`, `AuthEffects`: identity transitions, shared bootstraps, MFA
  refreshes and retries.
- `ControlView`, `ControlHook`, `ControlRuns`: compare-and-set writes whose replies may be lost.
- `Sorting`, `Names`, `MigrationPlan`, `MigrationStages`, `MigrationChecks`, `MigrationDeploy`: the reviewed
  migration plan, written out, checked again and deployed in stages.
- `Choosing`: reading what can be read of a list, in order.
- `WorkspaceState`, `WorkspaceDisplay`: which recorded outcomes are accepted, and what "healthy" means.
- `AlertSettings`: reading alert settings and what the page shows.
- `FleetReload`, `FleetRuns`: reloading failed fleet results.
- `ExportButton`, `ExportRuns`, `SessionHistory`, `HistoryRuns`: the latest request wins.
- `RiskMatrix`: the risk matrix's comparators and sort.

`dafny verify dfyconfig.toml` checks everything.

## What the proofs found

- A stale bootstrap is not harmless. When its MFA refresh returns, lines 213-219 of
  `components/providers/auth-provider.tsx` drop the session whatever the ticket, so an abandoned sign-in of A can
  leave B verified, without a session, without a spinner and without a reported failure
  (`SessionLostToAStaleContinuation`). It is the only thing a stale continuation can do, and the exact condition
  is `StaleContinuationLosesASession`.
- A microtask queued before a transition may run after it and take the in-flight slot, so two bootstraps can run
  for one ticket (`StaleMicrotaskSplitsBootstraps`). A running bootstrap is shared exactly as long as none has been
  started for another ticket after it (`BootstrapsAreShared`).
- A successful write can replace an answer that was read and accepted after its POST, which the comments at lines
  203-204 and 235-237 of `lib/api/directory-role-control-hooks.ts` rule out: an equal answer keeps the stored object,
  and the object is all that is compared. That is the only way, and what is replaced is always equal to what the
  write was based on (`SuccessReplacesANewerEntryExactly`, `SuccessReplacesOnlyItsBasis`).
- Invalidating a disabled query neither discards nor restarts a read. A read from before a failed write can then
  resolve it (`AnOldReadCanBeStated`), and only then (`OldReadSurvivesExactly`, `PanelStatesOnlyFreshAnswers`).
- Three guards of `components/auth/update-password-form.tsx` never decide anything in any run: the generation test
  at line 177, the one at line 97, and clearing the own sign-out's mark at line 143 (`GuardsThatNeverDecide`).
- The history panel's effect leaves no cleanup when it ran without readiness, so a read retried before the next
  effect would still be used after unmounting (`UnmountingVoids`).
- The two clock reads of a workspace record can disagree, on a clock that goes back past the last success of a
  running limited collection; `ReadingsDisagreeExactly` is the exact condition.
- The merge of sync records adds to its set of resources as it goes, but the addition never decides anything,
  because no two exchange names share a resource (`SyncEntries`).

## Assumptions

Replies of Supabase, Microsoft, the API and the query cache are arbitrary. Beyond that: an invalidation discards a
read of that key in flight and starts a new one if the query is enabled, and does neither if it is not; the
collection control has one write outstanding at a time, because its button is disabled meanwhile; a render and its layout effects are one step;
passive effects still owed run before the next render; the query cache stamps answers by a clock that does not go
back; JSON is faithful (a rendered manifest parses back, different subjects render differently); the hash is any
function; a directory listing holds each name once, in any order; Prisma applies, in name order, the migrations its
history does not name; the locale's collation is a total preorder.

A signal, a focus event or a retry acts for the user some render showed, which need not be the last.

## Model

The results come first. The handlers that the runs are made of, each proved to compute a function of the old refs,
follow from `PasswordForm.UpdatePasswordForm.HandleSubmit` on.

| member | source | states |
|---|---|---|
| `PasswordRuns.OwnershipInEveryRun` | components/auth/update-password-form.tsx:84-213 | Over every schedule of auth events, submits, replies, mounts and timers: a suspended attempt owns the form exactly when it is mounted and either no subject change was delivered since its dispatch, or exactly one was and it went straight to signed out while that attempt's own sign-out was outstanding. While the update is outstanding, owning already implies an unchanged generation, so the test at line 177 never refuses |
| `PasswordRuns.ChangeDecidesOwnership` | components/auth/update-password-form.tsx:84-107 | A subject change leaves an owning attempt its ownership if and only if it is the first, is to signed out, and arrives during the attempt's own sign-out: A to B, A to B to A, A to null to A and a late null all lose it |
| `PasswordRuns.DisownedForGood` | components/auth/update-password-form.tsx:144-213 | Once lost, ownership never returns: no later events let the attempt redirect or sign anyone out |
| `PasswordRuns.CallsOfEveryRun` | components/auth/update-password-form.tsx:117-213 | The complete call sequence of any run: one updateUser per attempt, in order; after a successful one at most one signOut, no further updateUser, and at most one redirect, of the same attempt |
| `PasswordRuns.CallsNeedOwnership` | components/auth/update-password-form.tsx:144-213 | A sign-out is called only by a mounted attempt that saw no subject change, a redirect only by one that still owns the form, an update only while none is outstanding and the form is not completed |
| `PasswordRuns.EveryRunKeeps` | components/auth/update-password-form.tsx:27-213 | In every reachable state: submitting holds exactly when one update is outstanding; the arming latch is set exactly while the newest sign-out is outstanding with nothing changed, and then at the current generation; session authority is the latest event's once there is one; a spinner has a live cause; a running timer is the one unmounting clears |
| `PasswordEffects.UpdateReplyDecides` | components/auth/update-password-form.tsx:153-191 | In every run, a reply to an outstanding update: from an attempt that saw a change, nothing shown and nothing called; a refusal is reported, ends loading, calls nothing and can be retried; only a success finishes the form and calls signOut |
| `PasswordEffects.SignOutReplyDecides` | components/auth/update-password-form.tsx:187-213 | In every run, a reply to the outstanding sign-out: a failure is reported to an owner, and the redirect timer starts if and only if an owner's sign-out succeeded |
| `PasswordEffects.SignsOutExactly` | components/auth/update-password-form.tsx:167-191 | In every run signOut is called if and only if a successful update reply reaches a mounted attempt that saw no subject change |
| `PasswordEffects.RedirectsExactly` | components/auth/update-password-form.tsx:210-213 | In every run the redirect happens if and only if the timer of an attempt that is mounted and still owns the form fires |
| `PasswordEffects.UpdatesExactly` | components/auth/update-password-form.tsx:117-153 | In every run updateUser is called if and only if a press with a session, eight characters and a match comes while nothing is outstanding or finished |
| `PasswordEffects.PressDecides` | components/auth/update-password-form.tsx:117-143 | Which of the three refusals a press shows, in order, what a dispatched one shows and clears, and that a busy or finished form ignores it |
| `PasswordEffects.AuthDecides` | components/auth/update-password-form.tsx:84-107 | An event of the live effect decides the session, also one without a user, and ends loading |
| `PasswordEffects.OldEffectsAreDeaf` | components/auth/update-password-form.tsx:85 | An event of an older effect does nothing |
| `PasswordEffects.ProbeDecides` | components/auth/update-password-form.tsx:66-79 | In every run a probe decides, or reports that it could not, only for the live effect and before any event |
| `PasswordEffects.ProbeEndsLoading` | components/auth/update-password-form.tsx:80-82 | A settled probe ends loading for the live effect alone |
| `PasswordEffects.MountingIsSilent` | components/auth/update-password-form.tsx:63-69 | A mount probes once and shows nothing |
| `PasswordEffects.UnmountingIsSilent` | components/auth/update-password-form.tsx:109-114 | In every run unmounting shows nothing and leaves no redirect running |
| `PasswordEffects.TimersAreSilent` | components/auth/update-password-form.tsx:210-213 | A timer fires once and shows nothing |
| `PasswordEffects.LatchIsOneShot` | components/auth/update-password-form.tsx:88-101 | A subject change clears the latch, and marks an own sign-out if and only if it goes to signed out straight from the generation the latch was set in |
| `PasswordEffects.ForeignUpdateIsDropped` | components/auth/update-password-form.tsx:177-183 | A successful update at another generation says nothing and calls nothing |
| `PasswordEffects.GuardsThatNeverDecide` | components/auth/update-password-form.tsx:91-183 | In no run do the latch's generation test, clearing the mark at a dispatch, or the test at line 177 decide anything |
| `AuthRuns.SessionsAreCurrentAndVerified` | components/providers/auth-provider.tsx:105-255 | In every reachable state a non-null session is the very payload that the POST of its source returned: a finished bootstrap whose ticket is the guard's own subject and generation and which saw the second factor verified in that generation |
| `AuthRuns.ShownMfaIsCurrent` | components/providers/auth-provider.tsx:126-187 | A verified second factor on screen was reported by a refresh dispatched and answered in the current generation |
| `AuthRuns.StaleContinuationCanOnlyDropTheSession` | components/providers/auth-provider.tsx:189-255 | A stale bootstrap's continuation changes nothing but the in-flight slot, and sets the session to null exactly when it resumes from its MFA refresh without a throw (lines 213-219) |
| `AuthRuns.StaleContinuationLosesASession` | components/providers/auth-provider.tsx:213-219 | If and only if: when a stale continuation costs the current identity its session |
| `AuthRuns.SessionLostToAStaleContinuation` | components/providers/auth-provider.tsx:213-219 | A reachable run in which it does, leaving the verified identity with no session, no spinner, no reported failure and no bootstrap queued or running for it |
| `AuthRuns.BootstrapsAreShared` | components/providers/auth-provider.tsx:189-255 | In every run: a caller with the current ticket joins a bootstrap running for it if and only if none was started for another ticket after it, and joins nothing else; two run for the current ticket only with one for another ticket started in between |
| `AuthRuns.JoinsOrStarts` | components/providers/auth-provider.tsx:190-197 | A caller with the current ticket changes nothing exactly when it joins, and otherwise starts the bootstrap that later callers join |
| `AuthRuns.StaleMicrotaskSplitsBootstraps` | components/providers/auth-provider.tsx:345-382 | It happens, with every render after the queued microtasks: B, already on screen, gives way to A and returns, a signal for B comes through first, and A's queued bootstrap then makes two run for B's ticket |
| `AuthRuns.LoadingInEveryRun` | components/providers/auth-provider.tsx:189-353 | Stale microtasks included: once anything has happened, loading implies a queued or live bootstrap of the current ticket |
| `AuthRuns.EndingClearsLoading` | components/providers/auth-provider.tsx:243-248 | However a bootstrap of the current ticket ends, loading is over |
| `AuthRuns.RetryLockIsExact` | components/providers/auth-provider.tsx:424-443 | The busy flag is up exactly when a retry of the current generation runs, there is then only one, and it alone refuses another press |
| `AuthRuns.RetryEndReleasesOnlyItsOwn` | components/providers/auth-provider.tsx:438-442 | When a retry ends, its finally lowers the flag exactly when it is the current generation's |
| `AuthRuns.EveryRunKeeps` | components/providers/auth-provider.tsx:95-443 | The invariant behind these results holds in every reachable state |
| `AuthEffects.TheIdentityShownIsTheGuards` | components/providers/auth-provider.tsx:105-119 | In every run the user on screen is the guard's subject |
| `AuthEffects.EndingsLeaveNobody` | components/providers/auth-provider.tsx:294-298 | Signing out, and an expiry of the current or of no subject, leave a new generation of nobody: no user, session, bootstrap or loading; an expiry of another subject does nothing |
| `AuthEffects.AuthChangeDecides` | components/providers/auth-provider.tsx:316-337 | An auth event begins a new identity if and only if it is expired or its session id or subject differs, and what it resets; within an identity it drops the session of an unconfirmed user and nothing else |
| `AuthEffects.AuthChangeQueues` | components/providers/auth-provider.tsx:339-353 | It loads if and only if it queues a bootstrap, and it does for a confirmed user who is new, has no session or is forced, under the ticket then current |
| `AuthEffects.RefreshDecides` | components/providers/auth-provider.tsx:257-280 | A session read that threw, or that an identity change overtook, is dropped whole; an expired one ends the identity, an unconfirmed one begins a new identity or drops the session |
| `AuthEffects.RefreshBootstrapsIt` | components/providers/auth-provider.tsx:282-290 | A confirmed one bootstraps, or joins, under its new or current ticket, and loads unless there is a session |
| `AuthEffects.FirstReadDecides` | components/providers/auth-provider.tsx:203-210 | A bootstrap goes on only for its own confirmed user and a current ticket; otherwise it ends, and a failure counts only for a current ticket |
| `AuthEffects.MfaDecides` | components/providers/auth-provider.tsx:212-219 | It goes on to the POST only verified and current; otherwise it ends and drops the session, unless the refresh threw for another identity |
| `AuthEffects.PostDecides` | components/providers/auth-provider.tsx:221-223 | A POST that throws ends it, with the session dropped and the failure kept for a current ticket only |
| `AuthEffects.SecondReadDecides` | components/providers/auth-provider.tsx:224-234 | The fetched session is taken if and only if the same user is still signed in and the ticket is current |
| `AuthEffects.OnlySecondReadsCommit` | components/providers/auth-provider.tsx:232 | No other step ever takes a session |
| `AuthEffects.MfaSubjectDecides` | components/providers/auth-provider.tsx:142-147 | Nobody signed in: answered, and shown to the dispatching generation only |
| `AuthEffects.MfaAssuranceDecides` | components/providers/auth-provider.tsx:149-164 | An error is answered, and shown to the dispatching generation only; otherwise the status follows from the two levels and the factors |
| `AuthEffects.MfaRecheckDecides` | components/providers/auth-provider.tsx:166-186 | The status is answered and shown if and only if the same subject is read again in the dispatching generation; otherwise signed out is answered and nothing shown |
| `AuthEffects.MicrotaskDecides` | components/providers/auth-provider.tsx:345-350 | A queued bootstrap runs for the user and ticket it was queued with: it joins or takes the slot |
| `AuthEffects.RetryDecides` | components/providers/auth-provider.tsx:427-437 | A retry starts if and only if the rendered user is confirmed and no retry of this generation holds the lock, and what it takes |
| `AuthEffects.SignalsDecide` | components/providers/auth-provider.tsx:359-382 | A signal bootstraps, or joins, if and only if the user it was set up for is the current subject |
| `AuthRuns.StepsAreTheProviders` | components/providers/auth-provider.tsx:257-290 | The runs' composite steps are the provider's own refresh and retry |
| `AuthProvider.AccessStatus` | lib/auth/mfa.ts:11-27 | Verified needs both assurance levels and an existing factor |
| `ControlRuns.PanelStatesOnlyFreshAnswers` | lib/api/directory-role-control-hooks.ts:121-160 | In every run, whenever the panel states the setting or offers an action: no read is in flight or failed, and the shown answer was accepted strictly after every settled failed write of this identity generation, by a read begun no earlier unless that write failed while the query was disabled with a read in flight |
| `ControlRuns.OldReadSurvivesExactly` | lib/api/directory-role-control-hooks.ts:264-277 | A read from before a failed write is left in flight if and only if the query was disabled with one in flight |
| `ControlRuns.AnOldReadCanBeStated` | lib/api/directory-role-control-hooks.ts:137-160 | A reachable panel that then states an answer whose read began before the write had failed |
| `ControlRuns.ResolutionPersists` | components/tenant/directory-role-control.tsx:76-79 | Once a known answer has been rendered, no read, failed read, render, click or identity change brings back the refused or unresolved phase until a new write fails |
| `ControlRuns.PostsOfEveryRun` | lib/api/directory-role-control-hooks.ts:228-243 | In every run no two POSTs are sent for one click, each asks for the opposite of the setting its click was shown, and the outstanding one, sent for the latest click, carries the expectation of its attempt's baseline |
| `ControlRuns.SuccessReplacesOnlyItsBasis` | lib/api/directory-role-control-hooks.ts:253-263 | In every run a success replaces the cached entry if and only if its write is of the current identity and every answer stored since the POST was equal and kept the object; what it replaces is then the baseline's object and view, with the expectation the POST echoed |
| `ControlRuns.SuccessReplacesANewerEntryExactly` | lib/api/directory-role-control-hooks.ts:199-206 | A success replaces an entry accepted after its POST if and only if, besides, at least one answer was stored since |
| `ControlRuns.ALateSuccessReplacesANewerEntry` | lib/api/directory-role-control-hooks.ts:199-206 | A reachable run in which it does, to an answer whose read began after the POST |
| `ControlRuns.ClicksAreOffered` | components/tenant/directory-role-control.tsx:181-191 | A click counts if and only if an action is offered; it then asks for the opposite of the known setting and clears the previous attempt and latch |
| `ControlRuns.LocalRefusalIsSilent` | lib/api/directory-role-control-hooks.ts:229-234 | In every run a click without a cached answer sends nothing, latches nothing and reads nothing |
| `ControlRuns.AnAnswerIsStated` | lib/api/directory-role-control-hooks.ts:150-159 | An answer accepted after the latch is stated as it is |
| `ControlRuns.AReadInFlightIsShown` | lib/api/directory-role-control-hooks.ts:131-150 | While a read is in flight nothing is stated, and whether checking, refreshing or a failed write is shown |
| `ControlRuns.AFailedReadIsSaid` | lib/api/directory-role-control-hooks.ts:139-153 | A failed read is said to have failed, or leaves the failed write named |
| `ControlRuns.AFailedWriteIsNamed` | lib/api/directory-role-control-hooks.ts:264-277 | In every run a failed write of the current identity is named at once, as refused if and only if the status is 400, 403 or 409 |
| `ControlRuns.CompletionsReread` | lib/api/directory-role-control-hooks.ts:253-277 | A completion of the current identity re-reads an enabled query |
| `ControlRuns.AwayAndBackDoesNothing` | lib/api/directory-role-control-hooks.ts:253-278 | A completion whose identity token has changed since its POST, A to B to A included, touches neither the cache nor the latch |
| `ControlRuns.OutstandingKeepsItsAttempt` | lib/api/directory-role-control-hooks.ts:208-278 | While a write is outstanding nothing replaces its attempt |
| `ControlRuns.EveryRunKeeps` | lib/api/directory-role-control-hooks.ts:208-281 | In every run: objects are distinct by identity, the outstanding write's baseline is the entry its POST echoed, and times, failures and posts are in order |
| `ControlHook.CompletionsAreGuarded` | lib/api/directory-role-control-hooks.ts:253-278 | One completion on any hook: nothing for another identity, no object replaced but the baseline, and every failure of the current identity latched; what this means in a run is `ControlRuns.SuccessReplacesOnlyItsBasis` |
| `ControlHook.PostEchoes` | lib/api/directory-role-control-hooks.ts:236-243 | A POST carries the decision asked for and the cached expectation, and there is one if and only if there is a cached answer |
| `ControlView.KnownExactly` | lib/api/directory-role-control-hooks.ts:121-160 | The exact condition under which the setting is stated, and that an action is offered only then and asks for the opposite |
| `ControlView.PhasesExactly` | lib/api/directory-role-control-hooks.ts:131-159 | Each of the six phases, if and only if: a latched failed write outranks all but the first read, and is named refused exactly when the server refused it |
| `ControlView.ActionsExactly` | lib/tenants/directory-role-control-view.ts:93-106 | Switching off is offered if and only if collection is known on; switching on if and only if it is known off with a configuration and a connection |
| `ControlView.FailuresByStatus` | lib/api/directory-role-control-hooks.ts:65-75 | Each failure, by the status and the use it comes of |
| `ControlView.WriteNamedOnlyWhileOutstanding` | lib/api/directory-role-control-hooks.ts:137-148 | A write is named only while latched, and as refused only on proof |
| `ControlView.WriteOutcomes` | lib/api/directory-role-control-hooks.ts:39-77 | Refused exactly on 400, 403 and 409, unsent exactly on a local refusal, otherwise uncertain |
| `MigrationPlan.PlanIsCanonical` | backend/scripts/e2-migration-upgrade.ts:62-76 | Any rearrangement of the same migrations gives the same plan and digest, or the same refusal |
| `MigrationPlan.CreatePlanAcceptsExactly` | backend/scripts/e2-migration-upgrade.ts:63-69 | A plan is made if and only if the candidate is a full SHA and the input is 66 distinct well-formed names holding the three reviewed ones with every other name before the first of those |
| `MigrationPlan.RefusalsExactly` | backend/scripts/e2-migration-upgrade.ts:63-69 | Which of the four refusals, if and only if: the first that applies, told from the unsorted input |
| `MigrationPlan.CandidatesExactly` | backend/scripts/e2-migration-upgrade.ts:63 | The candidate pattern, character by character |
| `MigrationPlan.NamesExactly` | backend/scripts/e2-migration-upgrade.ts:67 | The name pattern, character by character |
| `MigrationPlan.PlanHoldsItsInput` | backend/scripts/e2-migration-upgrade.ts:70-75 | The rows are the input's migrations in strictly ascending name order, each with its hash, under the digest of all of it |
| `MigrationPlan.DigestIdentifiesPlan` | backend/scripts/e2-migration-upgrade.ts:71-75 | Two plans with one digest are the same plan, lock and SQL included, or exhibit a hash collision |
| `MigrationPlan.BaselineIsAPrefix` | backend/scripts/e2-migration-upgrade.ts:123-127 | Stage 64 is a prefix of stage 66 |
| `MigrationPlan.StagesAreCutAtTheReview` | backend/scripts/e2-migration-upgrade.ts:28-32 | For every created plan the baseline stage ends with the first reviewed migration and the full stage, all of the plan, adds exactly the other two |
| `MigrationPlan.ManifestDescribesTheStages` | backend/scripts/e2-migration-upgrade.ts:107-114 | The manifest counts both stages as they are and lists every migration by name and hash, beside the candidate, the digest and the lock's hash |
| `MigrationStages.StagesAreNamedBySize` | backend/scripts/e2-migration-upgrade.ts:124 | A stage directory is named by the number of its migrations, in decimal |
| `MigrationStages.Scratch.Materialize` | backend/scripts/e2-migration-upgrade.ts:121-133 | Writing the plan into a fresh directory fails exactly when two rows clash, and otherwise leaves exactly the planned node at every path |
| `MigrationStages.Scratch.MaterializeStage` | backend/scripts/e2-migration-upgrade.ts:123-132 | One stage: the same below its directory, everything else untouched |
| `MigrationChecks.ValidateStage` | backend/scripts/e2-migration-upgrade.ts:136-164 | Validation in code order accepts exactly the trees described by a declarative predicate: manifest, entry list, lock, and each row's directory, sole file and hash |
| `MigrationChecks.ValidateLayout` | backend/scripts/e2-migration-upgrade.ts:142-154 | The part before the rows: the sorted listings agree exactly when the entries are the planned ones |
| `MigrationChecks.ValidateRow` | backend/scripts/e2-migration-upgrade.ts:155-162 | One row passes exactly when its directory is no link, holds the SQL file alone, and that file has the planned hash |
| `MigrationChecks.ReadDirectory` | backend/scripts/e2-migration-upgrade.ts:149 | A listing in any order holds each entry once |
| `MigrationChecks.MaterializedPasses` | backend/scripts/e2-migration-upgrade.ts:116-164 | Round trip: a materialized plan passes validation at both stages |
| `MigrationChecks.ProfileChangesNoVerdict` | backend/scripts/e2-migration-upgrade.ts:210-212 | Making the profile directory in the root changes no verdict, in either direction |
| `MigrationChecks.VerdictIsLocal` | backend/scripts/e2-migration-upgrade.ts:136-164 | A verdict depends on the manifest and that stage's directory alone |
| `MigrationChecks.PassingIsExact` | backend/scripts/e2-migration-upgrade.ts:136-164 | Converse: below a passing stage directory there is at every path, at any depth, what the plan puts there, and nothing else, file contents up to their hash |
| `MigrationChecks.PassingHoldsThePlan` | backend/scripts/e2-migration-upgrade.ts:136-164 | Byte for byte, or a hash collision is exhibited |
| `MigrationChecks.OnePlanPerDirectory` | backend/scripts/e2-migration-upgrade.ts:144-145 | A directory passes for one plan only, whatever the stages, or a hash collision is exhibited |
| `MigrationDeploy.UpgradeEndsWhereFreshDoes` | backend/scripts/e2-migration-upgrade.ts:255-288 | From validated directories, 64 then 66 leaves the history a 66 alone leaves, from any starting history; from an empty one it is exactly the plan |
| `MigrationDeploy.UpgradeAppliesTheReviewedTwo` | backend/scripts/e2-migration-upgrade.ts:278-288 | For a created plan and validated directories, the first deploy of the upgrade ends with the first reviewed migration and the second applies exactly the other two |
| `MigrationDeploy.PrefixFirst` | backend/scripts/e2-migration-upgrade.ts:278-288 | Deploying a prefix first never changes the outcome |
| `MigrationDeploy.OneListing` | backend/scripts/e2-migration-upgrade.ts:123-132 | What a stage directory lists in name order is unique |
| `Sorting.SortAgrees` | backend/scripts/e2-migration-upgrade.ts:149-150 | Two listings sort alike exactly when they hold the same entries |
| `WorkspaceState.OutcomeProjection` | lib/tenant-workspace-state.ts:123-160 | The validator, with its reassigned verdict and two clock reads, accepts exactly the well-formed records whose outcome equals one total function of status, resource, reason, attempt and success |
| `WorkspaceState.ReadingsDisagreeExactly` | lib/tenant-workspace-state.ts:136-155 | Reading the clock twice gives another verdict than reading it once if and only if the record is well formed at the first reading, running and limited, its success lies after the second reading and before its attempt, and its outcome is one of the two limited ones |
| `WorkspaceState.ClockReadsCannotDisagree` | lib/tenant-workspace-state.ts:136-155 | So never on a clock that does not go back |
| `WorkspaceState.ClockGoingBackDisagrees` | lib/tenant-workspace-state.ts:136-155 | A concrete record accepted by one reading and refused by two |
| `WorkspaceState.AcceptanceLasts` | lib/tenant-workspace-state.ts:123-160 | Accepted at one reading, accepted at every later one |
| `WorkspaceState.AcceptedOutcomeIsUnique` | lib/tenant-workspace-state.ts:123-160 | Two accepted records with the same inputs carry the same outcome |
| `WorkspaceState.SyncEntries` | lib/tenant-workspace-state.ts:83-100 | The merging loop computes every top-level record followed by the exchange records whose resource is unknown or not covered at the top, though its set grows as it goes |
| `WorkspaceState.MergeLosesNothing` | lib/tenant-workspace-state.ts:83-100 | A record is in the merge if and only if it is stored at the top, or stored for exchange while no top-level record has its known resource |
| `WorkspaceState.TopLevelStays` | lib/tenant-workspace-state.ts:84-87 | The merge begins with every top-level record, by position, in order, repetitions included |
| `WorkspaceState.ExchangeFollows` | lib/tenant-workspace-state.ts:89-98 | Then, by position and in order, exactly the exchange records no top-level record represents |
| `WorkspaceState.TableExactly` | lib/tenant-workspace-state.ts:103-112 | The resource of a name is what the table of 21 lists, and nothing for any other name |
| `WorkspaceState.CoherentOutcomesExactly` | lib/tenant-workspace-state.ts:139-158 | Each kind, basis and relation of the one coherent outcome, if and only if |
| `WorkspaceState.AcceptanceVouches` | lib/tenant-workspace-state.ts:123-138 | What an accepted record vouches for, field by field, and that nothing more is asked |
| `WorkspaceDisplay.HealthyHidesNoGap` | lib/tenant-workspace-state.ts:184-193 | Shown healthy: no findings, no access actions, a complete source, ready or absent sign-in evidence, and every record stored at the top or for exchange a success without error, still acceptable, but for sign-ins with another source and exchange records a top-level one represents; and such a workspace is shown healthy |
| `WorkspaceDisplay.NoRecordedGap` | lib/tenant-workspace-state.ts:185-187 | No recorded gap means every record exempt or a success at its own reading, whatever the clock |
| `WorkspaceDisplay.HeadlineIsTheWorst` | lib/tenant-workspace-state.ts:188-200 | Each headline, if and only if; the issues are the findings, then the access actions; stale is never verified |
| `WorkspaceDisplay.LabelsClaimOnlyWhatIsStored` | lib/tenant-workspace-state.ts:207-230 | Each label and each caveat, if and only if: success is said exactly of an accepted stored success and without caveat, a newer attempt exactly after an overtaken limited collection |
| `AlertSettings.ReadDispositions` | lib/alerts/read-dispositions.ts:189-274 | Loaded if and only if the envelope is whole, every readable row agrees with the member's authority and not every row was discarded; what is loaded and each refusal's reason |
| `AlertSettings.EveryEntryIsAccountedFor` | lib/alerts/read-dispositions.ts:224-229 | Each entry of the response is either the row it reads as, in order, or one of the discarded |
| `Choosing.EveryElementIsAccountedFor` | lib/alerts/read-dispositions.ts:224-228 | The push loop, for any reader: each element is the one it reads as, in its place in the order, or unreadable |
| `AlertSettings.CapabilitiesReadAreCoherent` | lib/alerts/read-dispositions.ts:84-133 | Exactly the coherent capabilities are read, each from its own spelling |
| `AlertSettings.RowsReadAreSpelled` | lib/alerts/read-dispositions.ts:150-181 | A row is read exactly from an object that spells each of its fields, non-blank, in the vocabulary and with a coherent capability; anything else is dropped whole |
| `AlertSettings.KeysAreTheStrings` | lib/alerts/read-dispositions.ts:217-222 | The unrecognised keys are, by position and in order, exactly the non-blank strings of the list |
| `AlertSettings.NoListNoKeys` | lib/alerts/read-dispositions.ts:217-222 | Anything but a list gives none |
| `AlertSettings.EditableExactly` | lib/alerts/dispositions.ts:131-179 | A loaded row is editable exactly when mapped, proven and the member can manage, and its label and delivery promise say the same |
| `AlertSettings.OnlyManagersEdit` | lib/alerts/dispositions.ts:131-142 | Whatever a row says, nobody edits it who cannot manage the policy |
| `AlertSettings.NothingMatchedOnlyWhenNothingCame` | lib/alerts/read-dispositions.ts:253-288 | Nothing matched is reported if and only if the response held no entry |
| `AlertSettings.CardOrList` | lib/alerts/settings-view.ts:53-86 | After a read exactly one of the empty card and the list is shown; the card blames the organisation only after an understood read; the reason, the discarded count and the unrecognised keys are the read's |
| `FleetRuns.PendingIsExact` | lib/api/fleet-risky-users-hooks.ts:100-111 | In every run of clicks, scope and cache changes and settlements, a key is pending exactly while a reload of it is unsettled |
| `FleetRuns.OneReloadPerKey` | lib/api/fleet-risky-users-hooks.ts:101-103 | No two unsettled reloads are of one key, in any run |
| `FleetRuns.DispatchesAreInScope` | lib/api/fleet-risky-users-hooks.ts:104-110 | Every dispatched refetch was of the lifecycle on screen, for a key failed and idle in its scope and selection, and for a tenant's results only with the tenant in the confirmed list |
| `FleetRuns.ReloadsDispatchExactly` | lib/api/fleet-risky-users-hooks.ts:104-109 | In every run a queued reload dispatches if and only if its lifecycle is on screen, its key failed and idle and its tenant, if any, in the confirmed list; otherwise it goes on to settle |
| `FleetRuns.ReloadsSettle` | lib/api/fleet-risky-users-hooks.ts:110 | A reload settles after its refetch, or without one, and frees its key only then |
| `FleetRuns.ClickIsServed` | lib/api/fleet-risky-users-hooks.ts:89-123 | A click on screen adds exactly what it wanted to what was pending, and a failed idle tenant list adds nothing but itself |
| `FleetRuns.GoneScopeIsInert` | lib/api/fleet-risky-users-hooks.ts:90 | A click from a scope that has gone does nothing |
| `FleetReload.ClickWantsExactly` | lib/api/fleet-risky-users-hooks.ts:112-122 | What a click is after, exactly |
| `FleetReload.ConfirmedExactly` | lib/api/fleet-risky-users-hooks.ts:96-99 | A tenant is confirmed if and only if the list of the scope was read successfully and names it |
| `FleetReload.FailedIdleExactly` | lib/api/fleet-risky-users-hooks.ts:92-95 | Failed and idle means status error and nothing being fetched |
| `FleetReload.Reloader.ReloadFailedResults` | lib/api/fleet-risky-users-hooks.ts:89-123 | The nested loops queue, in order and once each, what is wanted and not pending |
| `ExportRuns.LatestRequestWins` | components/tenant/directory-role-export-button.tsx:72-110 | In every run an answer is used if and only if it is the newest request's, nothing has invalidated that, and the identity and tenant are those it was made for; it then saves a file if readable and shows an error if not, and any other shows nothing |
| `ExportRuns.FilesAreTheNewest` | components/tenant/directory-role-export-button.tsx:82-102 | Every file saved in any run came of the request that was then the newest, not invalidated, for the identity and tenant of that moment |
| `ExportRuns.FilesAreInOrder` | components/tenant/directory-role-export-button.tsx:74-102 | Files are saved in the order asked for, none twice |
| `ExportRuns.SavedMeansSaved` | components/tenant/directory-role-export-button.tsx:101-102 | The saved message is shown only when the newest request saved a file |
| `ExportRuns.ClicksAsk` | components/tenant/directory-role-export-button.tsx:72-80 | In every run a click asks, for the rendered identity and tenant, if and only if there is an identity, and voids every earlier request |
| `ExportRuns.EffectsInvalidate` | components/tenant/directory-role-export-button.tsx:55-63 | In every run an owed effect clears what was shown and voids every request |
| `ExportRuns.UnmountingInvalidates` | components/tenant/directory-role-export-button.tsx:64-67 | In every run unmounting voids every request |
| `ExportRuns.RequestingNeverSticks` | components/tenant/directory-role-export-button.tsx:55-110 | While mounted and requesting, the newest request is outstanding and would be used, or an invalidation is owed |
| `ExportRuns.EveryRunKeeps` | components/tenant/directory-role-export-button.tsx:38-110 | The generation says exactly whether a request is the newest and stands |
| `HistoryRuns.PaintedTableIsNewest` | components/auth/console-session-history-panel.tsx:52-109 | A painted table is of the rendered identity and of the newest request, also in a render before the effect |
| `HistoryRuns.LatestReadWins` | components/auth/console-session-history-panel.tsx:67-83 | An answer is used if and only if it is the newest request's, not invalidated, and of the current identity; it then shows its own history or that it could not be read, and any other changes nothing shown |
| `HistoryRuns.PaintedExactly` | lib/auth/console-session-history.ts:115-121 | What is painted for a phase and a rendered identity |
| `HistoryRuns.ReadsStartAnew` | components/auth/console-session-history-panel.tsx:52-101 | In every run a retry, or an owed effect while ready, shows loading, asks for the rendered identity and voids every earlier request; without readiness the effect clears the phase |
| `HistoryRuns.UnmountingVoids` | components/auth/console-session-history-panel.tsx:97-100 | In every run unmounting voids the requests if and only if the last effect ran while ready |
| `HistoryRuns.LoadingNeverSticks` | components/auth/console-session-history-panel.tsx:52-109 | A painted spinner has an outstanding request that would be used, or an invalidation is owed |
| `HistoryRuns.EveryRunKeeps` | components/auth/console-session-history-panel.tsx:36-101 | The invariant behind these holds in every reachable state |
| `RiskMatrix.EveryComparatorIsConsistent` | components/dashboard/tenant-risk-matrix.tsx:81-136 | Every column's comparator, in both directions, is a consistent total preorder |
| `RiskMatrix.SortTenants` | components/dashboard/tenant-risk-matrix.tsx:104-138 | The sort works on a copy: the input is unchanged and the result is its stable sort |
| `RiskMatrix.SortedPermutation` | components/dashboard/tenant-risk-matrix.tsx:111-137 | The result is an ordered, stable permutation of the input |
| `RiskMatrix.UnknownCountsComeLast` | components/dashboard/tenant-risk-matrix.tsx:93-101 | By users at risk, in both directions unknown counts come last, known ones in the direction asked, and ties exact first, then by name |
| `RiskMatrix.OtherColumnsSorted` | components/dashboard/tenant-risk-matrix.tsx:111-135 | By name, score or threats the list goes up or down as asked |
| `RiskMatrix.UnknownScoresSwapEnds` | components/dashboard/tenant-risk-matrix.tsx:117-120 | By score, unknown ones come first ascending and last descending |
| `PasswordForm.UpdatePasswordForm.HandleSubmit` | components/auth/update-password-form.tsx:117-153 | The synchronous part of a submit: its refusals in order, and on dispatch the captured generation, the lock taken and both sign-out marks cleared |
| `PasswordForm.UpdatePasswordForm.OnUpdateSettled` | components/auth/update-password-form.tsx:157-191 | After the update: lock released, loading cleared only for an owner, and whether the sign-out is called |
| `PasswordForm.UpdatePasswordForm.OnSignOutSettled` | components/auth/update-password-form.tsx:195-213 | After the sign-out: disarmed whatever happened, a timer only for an owner without an error |
| `PasswordForm.UpdatePasswordForm.OnTimer` | components/auth/update-password-form.tsx:210-213 | The timer redirects exactly when the attempt owns the form as it fires |
| `PasswordForm.UpdatePasswordForm.OnAuthStateChange` | components/auth/update-password-form.tsx:84-107 | The auth handler's new state, with the one-shot arming read and cleared by a subject change |
| `PasswordForm.UpdatePasswordForm.OnSubjectChange` | components/auth/update-password-form.tsx:88-101 | The one-shot latch: cleared by the first change, accepted only when direct and to signed out |
| `PasswordForm.UpdatePasswordForm.OnProbeAnswered` | components/auth/update-password-form.tsx:66-79 | A probe's answer decides the session only while its effect is live and no event has been seen |
| `PasswordForm.UpdatePasswordForm.OnProbeSettled` | components/auth/update-password-form.tsx:80-82 | A probe of a live effect ends loading |
| `PasswordForm.UpdatePasswordForm.OnMount` | components/auth/update-password-form.tsx:63-64 | A mount revives the component flag and nothing else |
| `PasswordForm.UpdatePasswordForm.OnUnmount` | components/auth/update-password-form.tsx:109-114 | Unmounting drops the flag and clears the pending redirect timer |
| `TransitionGuard.AuthTransitionGuard.Begin` | lib/auth/data-isolation.ts:18-22 | A transition mints the next generation, and no ticket minted before is current afterwards |
| `TransitionGuard.AuthTransitionGuard.IsCurrent` | lib/auth/data-isolation.ts:28-32 | Current means equal generation and equal subject |
| `AuthProvider.Provider.BeginIdentityTransition` | components/providers/auth-provider.tsx:105-119 | Everything a transition resets, and the ticket it returns |
| `AuthProvider.Provider.SignOut` | components/providers/auth-provider.tsx:403-406 | Sign-out ends the identity and its loading before any await |
| `AuthProvider.Provider.OnIdleExpired` | components/providers/auth-provider.tsx:294-298 | An idle expiry ends the identity unless it is for another subject |
| `AuthProvider.Provider.AdoptIdentity` | components/providers/auth-provider.tsx:325-332 | An accepted session is adopted under the current ticket, or under a new one when its subject or session id differs |
| `AuthProvider.Provider.OnAuthStateChange` | components/providers/auth-provider.tsx:316-354 | The event handler's new state and whether it queues a bootstrap, and with which ticket |
| `AuthProvider.Provider.BootstrapIdentity` | components/providers/auth-provider.tsx:190-197 | A call joins the bootstrap in flight for its ticket or becomes it |
| `AuthProvider.Provider.OnFirstRead` | components/providers/auth-provider.tsx:203-210 | After the first session read: on to the MFA refresh, or finished with nothing committed |
| `AuthProvider.Provider.OnMfaReady` | components/providers/auth-provider.tsx:212-219 | After the MFA refresh: on to the POST only when verified and current, otherwise the session is dropped, stale or not |
| `AuthProvider.Provider.OnPosted` | components/providers/auth-provider.tsx:221-223 | A thrown POST is the catch's |
| `AuthProvider.Provider.OnSecondRead` | components/providers/auth-provider.tsx:224-234 | The session is committed only when the same user is still signed in and the ticket current |
| `AuthProvider.Provider.CatchBootstrap` | components/providers/auth-provider.tsx:235-242 | A failure is recorded, and the session dropped, for the current ticket only |
| `AuthProvider.Provider.SettleBootstrap` | components/providers/auth-provider.tsx:243-248 | The finally: loading cleared for the current ticket only, the slot only if still this promise's |
| `AuthProvider.Provider.OnMfaSubject` | components/providers/auth-provider.tsx:142-147 | No signed-in subject: shown as signed out only in the dispatching generation |
| `AuthProvider.Provider.OnMfaAssurance` | components/providers/auth-provider.tsx:149-164 | A failed assurance read is shown only in the dispatching generation |
| `AuthProvider.Provider.OnMfaRecheck` | components/providers/auth-provider.tsx:166-186 | A status is shown only for the same subject and the dispatching generation |
| `AuthProvider.Provider.OnRefreshRead` | components/providers/auth-provider.tsx:257-290 | A manual refresh's continuation, dropped when the identity changed during the read |
| `AuthProvider.Provider.OnUnconfirmedRead` | components/providers/auth-provider.tsx:272-280 | An unconfirmed or absent user ends the session, with a transition exactly when the identity differs |
| `AuthProvider.Provider.RetrySessionBootstrap` | components/providers/auth-provider.tsx:427-437 | A press takes the lock unless a retry of the current generation holds it |
| `AuthProvider.Provider.OnRetryDone` | components/providers/auth-provider.tsx:438-442 | An older operation's end never clears a newer one's lock |
| `ControlHook.SetDirectoryRoleControl.OnMutate` | lib/api/directory-role-control-hooks.ts:222-227 | A new action clears the previous attempt and latch |
| `ControlHook.SetDirectoryRoleControl.MutationFn` | lib/api/directory-role-control-hooks.ts:228-243 | A local refusal without cached data, else one POST echoing the cached expectation, with that entry as the baseline |
| `ControlHook.SetDirectoryRoleControl.OnSuccess` | lib/api/directory-role-control-hooks.ts:253-263 | The success path's new cache state |
| `ControlHook.SetDirectoryRoleControl.OnError` | lib/api/directory-role-control-hooks.ts:264-277 | The error path's new latch and cache state |
| `ControlHook.SetDirectoryRoleControl.ClearSettled` | lib/api/directory-role-control-hooks.ts:218 | Releases the latch and nothing else |
| `MigrationStages.Scratch.MaterializeRow` | backend/scripts/e2-migration-upgrade.ts:127-131 | One row: its directory and its file, refused exactly when the directory exists |
| `MigrationStages.Scratch.MakeDirectory` | backend/scripts/e2-migration-upgrade.ts:125 | Refused exactly when the path exists or its parent is no directory |
| `MigrationStages.Scratch.WriteFile` | backend/scripts/e2-migration-upgrade.ts:126 | Refused exactly when its parent is no directory or the path is one |
| `FleetReload.Reloader.ReloadTenant` | lib/api/fleet-risky-users-hooks.ts:118-121 | For one tenant, each failed idle source is queued in order, unless pending |
| `FleetReload.Reloader.Reload` | lib/api/fleet-risky-users-hooks.ts:100-103 | One reload, unless pending |
| `FleetReload.Reloader.Settled` | lib/api/fleet-risky-users-hooks.ts:110 | The end of a reload frees its key |
| `ExportButton.DirectoryRoleExportButton.StartDownload` | components/tenant/directory-role-export-button.tsx:72-80 | A click's new state and request |
| `ExportButton.DirectoryRoleExportButton.OnReply` | components/tenant/directory-role-export-button.tsx:85-109 | A reply's effect, none unless admissible |
| `ExportButton.DirectoryRoleExportButton.RunEffect` | components/tenant/directory-role-export-button.tsx:55-68 | The effect and the previous run's cleanup |
| `ExportButton.DirectoryRoleExportButton.OnUnmount` | components/tenant/directory-role-export-button.tsx:64-67 | Unmounting invalidates |
| `SessionHistory.ConsoleSessionHistoryPanel.StartLoad` | components/auth/console-session-history-panel.tsx:52-61 | A load's new state and request |
| `SessionHistory.ConsoleSessionHistoryPanel.OnReply` | components/auth/console-session-history-panel.tsx:67-83 | A reply's effect, none unless admissible |
| `SessionHistory.ConsoleSessionHistoryPanel.RunEffect` | components/auth/console-session-history-panel.tsx:86-101 | Cleanup only after a ready run, then a load or an invalidation |
| `SessionHistory.ConsoleSessionHistoryPanel.OnUnmount` | components/auth/console-session-history-panel.tsx:97-100 | Unmounting invalidates what a ready run started |

## Left out

- Markup, styling, copy, focus handling and message texts; errors are kept as kinds.
- The unconfigured authentication client: every branch for a missing client only reports it.
- MFA factor lists and messages: the status alone is modelled.
- The session ref and the session state of the provider are one field; React batches them together.
- The workspace signal queue and the passive refresh limiter: reduced to an arbitrary request to bootstrap the user on screen.
- The idle-session store: an expiry is an event of its own, also when the store notifies during an auth event; the browser sign-out that follows it is not part of this model.
- Abort signals: an aborted request is one whose answer fails.
- The write panel's echoed fields (`readFailure`, `writeFailure`, `isRefreshing`) and the parsing of control answers.
- The results query that a write also invalidates: nothing modelled reads it.
- The migration script's environment and URL checks, Git, child processes, PostgreSQL, real paths and the placing of the scratch directory: foreign calls and single conditions.
- MigrationStages.Scratch.Materialize: does not model names with path separators, because an accepted plan has none.
- MigrationDeploy.UpgradeEndsWhereFreshDoes: does not model a deploy that fails half way, because the script stops there.
- String lengths and comparisons are by code unit of the model's characters; dates are integers with a flag for canonical form.
- WorkspaceState.OutcomeProjection: does not model trimming and letter case of the stored status, because it is normalised before any branch.
- Access connection labels, timestamps and per-service freshness of the workspace: single conditionals.
- Customer attention, notification capabilities, fleet risk projection and tenant risk presentation are parameters: their code is elsewhere.
- The observer's `active` filter of a dispatched refetch and React's interval clock.
- RiskMatrix.SortTenants: does not model fractional or missing-number scores, because counts and scores are whole in the data.
