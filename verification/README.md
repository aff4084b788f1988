# Verification model of the agent harness

The harness drives a Run of an automated code change through a sixteen-state
lifecycle. This project models the parts of it that carry its guarantees, proves
each step against a specification, and proves what whole runs promise.

- `Lifecycle`, `Journal`, `Database`: the transition table and its pure kernel, the
  hash-chained journal, and the one transaction that moves a Run, as a class with a
  durable and a working copy of the tables and a crash before any statement.
- `Interleaving`, `Actors`: any number of processes on one database, statement by
  statement; the CLI commands and the recovery scan as such processes.
- `Regex`, `Glob`: the glob compiler emits regular-expression text, an independent
  parser and semantics read it, and a direct reading of globs is what both must meet.
- `Manifest`, `Scope`, `Evidence`: manifest diffs as least patches, scope rules as a
  lattice that agrees with what is rejected, and frozen attempts over rework rounds.
- `Policy`, `Contracts`, `Verification`, `Rework`: the policy gate, the checks behind
  an accepted PASS, rework contracts and budgets.
- `Trail`, `Rounds`, `Pipeline`: the whole rework pipeline over an arbitrary
  environment, sharing the database with others: what it leaves in the journal and
  the audit tables, its rounds, and when and how it ends.
- `Redaction`, `BlobStore`: sequential substitution that leaves no secret, and a
  deduplicating store with a reference-aware purge, alone and interleaved.
- `Events`, `Bounded`: the provider's retry loop with its producer and consumers, the
  stream normaliser, the rate limiter and the capped drain.

Answers of providers, approvers, host checks, git and the clock are parameters,
quantified over all their values. Digests are arbitrary functions: statements that
need them injective end in "or these two values collide".

Where the code and its own documentation differ, the model follows the code:

- The exit before planning asks for CREATED to FAILED, which the table refuses
  (`Pipeline.FailBeforePlanning`); the Run stays in CREATED.
- A Run resumed from RECOVERY_REQUIRED may be merged without ever executing or
  verifying anything (`Lifecycle.RecoveryCanSkipTheChain`); which resumptions skip a
  state of the chain, and that no others do, is `Lifecycle.ChainRepeatsExactly`.
- The PASS gate sees the last attempt's changes only, so a Run may be merged with a
  forbidden file (`Pipeline.MergeDespiteForbiddenFile`); exactly when the whole change
  stays in scope is `Pipeline.MergedRunStaysInScopeExactly`.
- A verdict may name another task or contract (`Pipeline.NamesAreNotCompared`).
- A rejection by the CLI is recorded under the correlation of an approval
  (`Actors.RunCommand`).
- Globs and newlines: `**` stops at one and a final one may be overlooked
  (`Glob.FaithfulExactlyWithoutNewlines`).
- Scope intersection compares patterns, so a path both sides allow may be refused
  (`Scope.MeetCanRefuseBoth`); the subset test ignores generated paths, and
  `Scope.SubsetStricterExactly` says when that is harmless.
- A command criterion without declared exit codes accepts any exit code, and of
  several answers for one criterion the last counts (`Verification.CommandSucceeded`,
  `Verification.FailureIsOverlookedExactly`, `Verification.EarlierFailureIsOverlooked`).
- The normaliser promises to reject a different event under a repeated number and
  drops it (`Events.RepeatedNumberIsDropped`); consumers wait for ever when the turn of
  a retry that is due cannot be created, and only then, since the invocation is then
  never done (`Events.Invocation.RunWithRetries`, `Events.ReturnsExactlyWhenDone`).
- The purge counts references and unlinks later, without a lock: a blob can go between
  a write and its row, and a row can come in between the count and the unlink
  (`BlobStore.SecondArtifactCanLoseItsBlob`); `BlobStore.InsertedStaysReadable` says
  exactly when a row keeps its blob.
- The contract and verification rows are stored under ids the planner and the verifier
  choose, and a reused id raises out of the pipeline, which leaves the Run in
  CONTRACT_VALIDATING or VERIFYING (`Pipeline.RowsStoredExactly`).

## Model

| member | source | states |
|---|---|---|
| Lifecycle.ValidateTransition | src/agent_harness/application/transitions.py:226-233 | a step is accepted exactly when the table lists it, terminal states having no way out, and the reason of a refusal is one or the other |
| Lifecycle.TransitionRun | src/agent_harness/application/transitions.py:236-282 | the kernel accepts exactly a listed step with a failure record iff the target is FAILED and a pending action iff it is a waiting state; version + 1, time of update now, disposition set exactly by terminal targets, every other field and both records passed through; each refusal names the first test that failed |
| Lifecycle.TableBothWays | src/agent_harness/application/transitions.py:80-180 | the table read by target, entry by entry, is the same table |
| Lifecycle.TerminalMeans | src/agent_harness/application/transitions.py:80-180 | the terminal states are exactly those no step leads out of |
| Lifecycle.PreparedOnlyAfterValidation | src/agent_harness/application/transitions.py:80-180 | without recovery, a prepared workspace is always preceded by a contract validation after the last (re)contracting |
| Lifecycle.WorkBeforeFinalApproval | src/agent_harness/application/transitions.py:80-180 | without recovery, final approval is preceded by validating, preparing, executing, freezing, host validation and verifying, in that order |
| Lifecycle.MergeRepeatsTheChain | src/agent_harness/application/transitions.py:80-180 | every legal history ending merged repeats the whole chain of eight states in order after any (re)contracting, or is resumed somewhere after it further on in the chain than it had come |
| Lifecycle.ChainRepeatsExactly | src/agent_harness/application/transitions.py:64-180 | for every set of (interrupted state, resumed state) pairs: all merged histories resumed only by pairs of the set repeat the whole chain after every (re)contracting if and only if no pair resumes beyond the next state of the chain (or at manual review instead of verifying) |
| Lifecycle.ShortCutSkips | src/agent_harness/application/transitions.py:64-180 | each other pair has a merged history that never was in the state of the chain that came next |
| Lifecycle.RecoveryCanSkipTheChain | src/agent_harness/application/transitions.py:64-78 | a legal, merged history that was resumed at final approval and never executes or verifies |
| Lifecycle.EntriesOfAHistory | src/agent_harness/application/transitions.py:80-180 | EXECUTING only from PREPARING_WORKSPACE, READY_FOR_MERGE only from AWAITING_FINAL_APPROVAL, no failure out of CREATED, terminal states last, recovery included |
| Journal.QueriesFindTheLastRow | src/agent_harness/persistence/sqlite.py:442-463 | on a journal numbered without gaps the two queries find the last row's hash and the next free number |
| Journal.ReplayShape | src/agent_harness/persistence/sqlite.py:424-507 | replaying a journal that fits gives the state of its last row and the initial version plus its length; only a finished Run has a disposition |
| Journal.CommitIsWritten | src/agent_harness/persistence/sqlite.py:442-503 | a committed request leaves one row more: its actor, correlation, identifiers, time and pending action, the state and version it found and left, and the failure record as given |
| Journal.CommitKeepsConsistent | src/agent_harness/persistence/sqlite.py:424-507 | a committed request keeps every Run consistent: rows numbered 0..n-1, linked by hash, adjacent in state, every step in the table, row = replay, one failure record iff FAILED, pending action iff waiting |
| Journal.InsertKeepsConsistent | src/agent_harness/persistence/sqlite.py:135-145 | inserting a Run keeps that for all Runs and starts it with an empty journal |
| Journal.JournalsAreLegalHistories | src/agent_harness/persistence/sqlite.py:424-507 | the journal of a Run is a legal lifecycle history from its inserted state to its present one |
| Journal.HeadHashDeterminesHistory | src/agent_harness/persistence/sqlite.py:442-480 | two well-linked journals with one head hash are equal in length and entry for entry, or two of their rows collide under the digest |
| Journal.MovesKeepRemembered | src/agent_harness/persistence/sqlite.py:431-440 | a Run once read is never ahead of the table and is exact while its version is |
| Database.Database.InsertRun | src/agent_harness/persistence/sqlite.py:135-145 | a second row for one Run is refused and changes nothing; otherwise exactly that row is added, and for an unfinished Run every invariant is kept |
| Database.Database.ApplyTransition | src/agent_harness/persistence/sqlite.py:401-507 | the transaction, statement by statement: it commits exactly when its request is legal, current and fresh, then leaves exactly the moved row, one journal row that tells who asked for what, when and under which correlation and identifiers, and the failure record field by field; refused or dead before the commit, it leaves every table as it was; the error is the first test it fails |
| Database.Database.ListRunsByStates | src/agent_harness/persistence/sqlite.py:153-170 | every Run in one of the states is listed as its row stands, no other is, and none twice |
| Database.StatementsBuildAfter | src/agent_harness/persistence/sqlite.py:442-507 | the single statements of an accepted request build exactly the tables the request means, and only a used identifier can stop them |
| Database.Refusal | src/agent_harness/persistence/sqlite.py:431-440 | each error exactly when: unknown Run, another version, a step the kernel refuses, a used identifier; the compare-and-set never fails inside the lock |
| Interleaving.TransactionMeaning | src/agent_harness/persistence/sqlite.py:424-507 | an undisturbed transaction does exactly what its request means |
| Interleaving.EveryWorldIsConsistent | src/agent_harness/persistence/sqlite.py:401-507 | every interleaving of readers, inserters and transactions, statement by statement and with crashes anywhere, keeps the tables consistent and equal to a serial run of the committed operations |
| Interleaving.HistoriesAreSerial | src/agent_harness/persistence/sqlite.py:424-507 | linearizability: the tables are those of a serial run of the kernel; a step that commits nothing leaves every table as it was |
| Interleaving.OneCommitPerVersion | src/agent_harness/persistence/sqlite.py:431-440 | once a request on a version has committed, no other request on that version of the Run can |
| Interleaving.JournalsAlwaysReplay | src/agent_harness/persistence/sqlite.py:424-507 | in every reachable world, for every Run: row = replay of its journal, version = initial + n, legal steps, failure record iff FAILED, pending action iff waiting |
| Interleaving.MergedRunsDidTheWork | src/agent_harness/application/transitions.py:80-180 | in every reachable world a merged Run's journal repeats the chain or shows a resumption beyond the next state |
| Interleaving.MergedRunsDidTheWorkExactly | src/agent_harness/application/transitions.py:64-180 | whatever resumptions are allowed, all merged Runs of all reachable worlds went through the chain if and only if each of them is harmless |
| Interleaving.EveryHistoryIsReached | src/agent_harness/persistence/sqlite.py:401-507 | every legal history of an unfinished Run is the journal of a reachable world, so that the journals are exactly the legal histories |
| Actors.Attempt | src/agent_harness/persistence/sqlite.py:401-507 | a request that was legal for the Run as read is refused only because someone else moved it first, a drawn identifier was taken, or the write lock was not to be had in time |
| Actors.CommandTarget | src/agent_harness/interfaces/cli.py:118-127 | what each command asks for is always in the table, and exactly when it refuses; approval moves towards the merge, rejection never does, resume goes where it was told and never to EXECUTING |
| Actors.RunCommand | src/agent_harness/interfaces/cli.py:130-260 | approve, reject, resume and cancel under interference: refusals request nothing, an empty rationale raises before the request exactly where a pending action would carry it, legal requests fail only when someone else moved the Run after it was read; the row of a command carries the user, the correlation of the command (a rejection goes by that of an approval), the rationale as pending action or as detail of the failure, and the kind of what is pending |
| Actors.ScannedStates | src/agent_harness/application/recovery.py:62-82 | the scanned states are exactly the unfinished, non-waiting ones except CREATED, and the recoverable ones exactly those with a way to RECOVERY_REQUIRED |
| Actors.RunRecoveryScan | src/agent_harness/application/recovery.py:99-160 | run alone, the scan moves exactly the Runs in a working state untouched for that long: out of PREPARING_WORKSPACE, EXECUTING, FREEZING_RESULT and HOST_VALIDATING to RECOVERY_REQUIRED, unfinished and with a pending recovery decision, otherwise to FAILED with a retriable record of the stale state; every row by the recovery coordinator; no other Run or journal is touched, and each moved Run is reported once |
| Actors.SecondScanFindsNothing | src/agent_harness/application/recovery.py:114-160 | after a scan nothing is stale at the same cutoff |
| Glob.CompiledIsParsed | src/agent_harness/execution/scope_guard.py:30-59 | the emitted text parses to one node per token between the anchors: no character of a pattern acts as regular-expression syntax |
| Glob.GlobToRegex | src/agent_harness/execution/scope_guard.py:30-59 | the index loop emits the text of the whole pattern |
| Glob.PythonDecides | src/agent_harness/execution/scope_guard.py:62-63 | `path_matches_glob` on every path, newlines included: `.` stops at a newline and `$` overlooks a final one |
| Glob.CompilerPreservesMeaning | src/agent_harness/execution/scope_guard.py:30-63 | on newline-free paths the compiled regular expression accepts exactly what a direct recursive reading of the glob accepts |
| Glob.FaithfulExactlyWithoutNewlines | src/agent_harness/execution/scope_guard.py:30-63 | a path is treated as documented under all patterns if and only if it has no newline |
| Glob.SpecialPatterns | src/agent_harness/execution/scope_guard.py:30-59 | what `?`, `*`, `**` and `**/` match by themselves |
| Glob.PlainPattern | src/agent_harness/execution/scope_guard.py:55-57 | a pattern without `*` and `?` matches itself only |
| Glob.NameThenSlash | src/agent_harness/execution/scope_guard.py:33-37 | a name pattern before `/` takes exactly one path segment |
| Glob.SegmentMeaning | src/agent_harness/execution/scope_guard.py:33-37 | on paths without empty segments, a pattern at segment boundaries matches segment by segment: `**/` is zero or more whole segments, a final `**` one or more |
| Manifest.DiffManifests | src/agent_harness/execution/validation.py:153-167 | added, deleted, modified and unchanged paths, each listed once, told apart by type, bytes, link target and mode (the size is not part of it) |
| Manifest.ModifiedMeans | src/agent_harness/execution/validation.py:147-165 | a path in both manifests is modified exactly when its type, digest, link target or mode differs, and unchanged when all four agree |
| Manifest.ByPathMeans | src/agent_harness/execution/validation.py:153-156 | a path has the last entry listed for it |
| Manifest.ChangesAreDifferences | src/agent_harness/execution/validation.py:147-167 | a path is listed as changed exactly when its content differs, and once |
| Manifest.DiffPartitions | src/agent_harness/execution/validation.py:153-167 | the four lists split the paths of both manifests |
| Manifest.PatchLaw | src/agent_harness/execution/validation.py:153-167 | bringing over a set of paths turns the baseline into the result, up to identity, exactly when the set has every changed path: the diff is the least patch |
| Manifest.EveryChangeIsReported | src/agent_harness/application/orchestrator.py:876 | over any number of rounds with a rolling baseline, every path that differs between the first baseline and the last post-test tree is in some round's diff or side effects |
| Scope.FindScopeViolations | src/agent_harness/execution/scope_guard.py:66-134 | nothing is reported exactly for a clean diff (paths, new files, file and byte ceilings, exemptions, bytes only with a manifest), every offending path is named for the rule it breaks, and nothing else |
| Scope.CeilingFindings | src/agent_harness/execution/scope_guard.py:107-132 | the counted part: new files, changed files and changed bytes, exempted paths left out, each reported with its number exactly when over its ceiling |
| Scope.PermittedMeans | src/agent_harness/execution/scope_guard.py:100-105 | a path is permitted when the regular expression of no forbidden pattern matches it and that of some allowed one does |
| Scope.ChargedSizes | src/agent_harness/execution/scope_guard.py:121-129 | a new or changed file is charged its new size, a deleted one its old size |
| Scope.BytesAddUp | src/agent_harness/execution/scope_guard.py:124-129 | the charges of a list of paths add up |
| Scope.SubsetIsPreorder | src/agent_harness/domain/validation.py:144-173 | the subset test is a preorder, antisymmetric up to the generated paths it ignores |
| Scope.IntersectionIsMeet | src/agent_harness/policy/paths.py:18-38 | a scope is below the intersection exactly when it is below both operands, generated paths compared or not |
| Scope.MeetIsSound | src/agent_harness/policy/paths.py:18-38 | a diff clean under the intersection is clean under the request and under the ceiling, counts, bytes and exemptions included |
| Scope.MeetPermitsExactly | src/agent_harness/policy/paths.py:21-27 | the intersection lets a path through exactly when one common pattern allows it and neither side forbids it |
| Scope.MeetCanRefuseBoth | src/agent_harness/policy/paths.py:21-27 | a path both sides allow can be refused by the intersection, which compares patterns and not what they match |
| Scope.SubsetIsSound | src/agent_harness/domain/validation.py:144-173 | an accepted pair is stricter on every diff once the child's generated patterns are among the parent's |
| Scope.SubsetStricterExactly | src/agent_harness/domain/validation.py:144-173 | on every diff of two manifests: an accepted pair is stricter if and only if, under a parent that forbids new files or caps bytes, every in-scope path the child exempts is exempt for the parent; under one that only caps files at n, no n + 1 distinct in-scope paths escape the child's count but not the parent's; always, under a parent without ceilings |
| Scope.GapBreaks | src/agent_harness/domain/validation.py:144-173 | one in-scope path exempt for the child alone gives two manifests whose diff the child passes and such a parent rejects |
| Scope.OverflowBreaks | src/agent_harness/domain/validation.py:144-173 | more distinct paths than the parent's file ceiling, few enough of them counted by the child, do the same |
| Policy.EvaluatePolicy | src/agent_harness/policy/evaluator.py:61-163 | every requested item is granted or named in a denial, never both; DENY exactly above the ceiling or on a hard-denied domain; otherwise exactly what was asked is granted, the access and each flag included; a human is asked exactly about the gated capabilities in use, each once and in the fixed order; grants never above the ceiling; subject, id, time and seal of the decision are those given |
| Policy.MetadataIsDenied | src/agent_harness/policy/evaluator.py:37-51 | each of the four metadata endpoints is denied under every ceiling |
| Policy.MergeIsJoin | src/agent_harness/application/orchestrator.py:180-203 | the merged request is the least one that covers both |
| Policy.WiderAccessIsKept | src/agent_harness/application/orchestrator.py:173-195 | of two accesses the merge keeps the wider: writing over reading over none |
| Policy.OutcomeIsMonotone | src/agent_harness/policy/evaluator.py:143-163 | asking for more never gets a milder outcome, whatever the ceiling |
| Policy.GrantsOnlyGrow | src/agent_harness/application/orchestrator.py:849-864 | across rounds outcomes never get milder, grants of accepted rounds only grow, stay within the ceiling and clear of the hard-denied domains |
| Policy.ApprovalOpensOnlyItsDecision | src/agent_harness/policy/approvals.py:32-106 | an approval opens only the very decision it was made for (or its body collides under the seal), never a denied one, never after it expires; for its own decision it does what the approver said |
| Policy.ApprovalFailsExactly | src/agent_harness/policy/approvals.py:32-106 | what an approval is bound to when it is made, and each reason it cannot be used, the first first |
| Evidence.FreezeAndValidate | src/agent_harness/execution/evidence.py:181-268 | the worker's diff is judged on the snapshot before any host check, every offending path named, and what the checks change is reported on its own |
| Evidence.EvidenceIsAll | src/agent_harness/execution/evidence.py:250-252 | the evidence of an attempt is that of all its executions, and no other |
| Evidence.SpotlessAttemptsStayInScope | src/agent_harness/execution/evidence.py:222-248 | if every attempt is free of scope violations and side effects, everything changed since the first checkout is permitted by the contract's scope and the ceiling's |
| Evidence.LastSpotlessIsEnoughExactly | src/agent_harness/application/orchestrator.py:868-876 | with only the last attempt known to be spotless, the whole change stays in both scopes if and only if what had changed before that attempt does |
| Evidence.LastSpotlessIsNotEnough | src/agent_harness/application/orchestrator.py:868-876 | two attempts, the last spotless, with an earlier forbidden file that stays |
| Contracts.MalformedExactly | src/agent_harness/domain/models.py:275-319 | the four ways a verification result is refused when it is built |
| Verification.FindPassInvariantViolations | src/agent_harness/domain/validation.py:66-119 | silent exactly when every mandatory criterion is met by its last answer, none is NOT_VERIFIED, no BLOCKER or HIGH finding and no reported scope violation remains; otherwise it names every fault, and nothing that is none |
| Verification.FindMissingEvidenceViolations | src/agent_harness/application/verification.py:187-213 | silent exactly when every passed criterion cites evidence and all of it exists; otherwise it names exactly the answers at fault |
| Verification.FindCheckExecutionViolations | src/agent_harness/application/verification.py:216-271 | silent exactly when every command criterion's execution exists, neither timed out nor was capped, ended with a declared code if any is declared, and the checks changed nothing; otherwise each report is a true one and none is missing |
| Verification.MetMeans | src/agent_harness/domain/validation.py:79-100 | a criterion is met when the last answer for it is a pass, or a waiver that names its approval |
| Verification.CommandSucceededMeans | src/agent_harness/application/verification.py:216-271 | a command criterion succeeded when the last run of its command ended in time, uncapped and with a declared exit code if any is declared |
| Verification.BackedMeans | src/agent_harness/application/verification.py:187-213 | evidence exists when each passing answer cites some, all of it from a host check of the attempt |
| Verification.AcceptVerdict | src/agent_harness/application/verification.py:384-402 | a PASS is accepted exactly when all host checks agree, an unsafe one becomes MANUAL_REVIEW, every other verdict stands |
| Verification.LaterAnswerWins | src/agent_harness/domain/validation.py:79 | of several answers for one criterion only the last decides |
| Verification.FailureIsOverlookedExactly | src/agent_harness/domain/validation.py:79 | turning an answer for a mandatory criterion into a failure goes unseen if and only if a later answer has the same id |
| Verification.EarlierFailureIsOverlooked | src/agent_harness/domain/validation.py:79 | a PASS that also answers a mandatory criterion with FAIL, and is believed |
| Rework.MethodOfFirstFailed | src/agent_harness/application/rework.py:129-133 | the verification method of the contract's first failed criterion, COMMAND if none of them failed |
| Rework.FailedMeans | src/agent_harness/application/rework.py:60-70 | a criterion has failed when an answer for it is a fail, not verified or not applicable |
| Rework.UnreworkableExactly | src/agent_harness/application/rework.py:121-163 | no rework contract can be made exactly when none is asked for, nothing failed, or a fix is missing or empty |
| Rework.BuildReworkContract | src/agent_harness/application/rework.py:100-165 | succeeds exactly for a REWORK verdict with failed criteria, non-empty fixes and an unwidened scope, and binds parent, verdict, snapshot, criteria, findings, fixes with their verification method, scope and budget under its own digest; each error exactly when |
| Rework.SpendingOnlyGrows | src/agent_harness/application/usage.py:23-57 | what is used is what was used plus all turns and tokens reported since, the rework axis moves by exactly the calls flagged as reworks, and a ceiling once exceeded stays exceeded |
| Rework.WithinBudgetMeans | src/agent_harness/application/usage.py:39-57 | the check fails exactly for too many turns or too many reworks |
| Trail.Transition | src/agent_harness/application/orchestrator.py:373-426 | every transition the pipeline requests is legal; it fails only when the process dies, this Run has moved past the version the pipeline remembers, a drawn identifier is in the tables, or the write lock was not to be had in time; each success has its row in the journal, by the orchestrator under the Run's correlation, at its time, with the kind of what is pending, and a failure its record: stage, code, time, not retriable |
| Trail.Store | src/agent_harness/persistence/migrations.py:199-244 | a row of the audit trail is stored exactly when the database is not held by another for too long and its key is new; otherwise the pipeline ends with the Run in CONTRACT_VALIDATING or VERIFYING |
| Rounds.GatePolicy | src/agent_harness/application/orchestrator.py:429-492 | the decision, on the subject given and at the time of the gate, is stored first; the gate opens only for one that is no denial, and with an approver's yes where one is required; a closed gate has failed the Run in the policy stage with the code of its cause |
| Rounds.Execute | src/agent_harness/application/orchestrator.py:667-721 | the worker is called only within budget, its usage is booked, and a used-up budget or a timeout fails the Run with its stage and code |
| Rounds.Freeze | src/agent_harness/application/orchestrator.py:723-743 | freezing and host checks, as the host saw them, under the granted scope, from the rolling baseline |
| Rounds.Verify | src/agent_harness/application/orchestrator.py:745-782 | the verifier is called only within budget, its verdict re-checked against the frozen result and stored under the id the verifier gave it |
| Rounds.Conclude | src/agent_harness/application/orchestrator.py:784-817 | where each accepted verdict but REWORK leads |
| Rounds.ContractRework | src/agent_harness/application/orchestrator.py:819-847 | exactly the same failed criteria as before, or no rework left, fails the Run; otherwise a bound and sealed rework contract is stored and the Run goes back to contract validation; a REWORK verdict no contract can be built for ends the pipeline in VERIFYING |
| Rounds.Regate | src/agent_harness/application/orchestrator.py:849-866 | extra capabilities are merged with those in force and decided again; without any the grants stay |
| Rounds.RunRounds | src/agent_harness/application/orchestrator.py:666-878 | the loop ends, and every turn keeps the record |
| Pipeline.FailBeforePlanning | src/agent_harness/application/orchestrator.py:521-533 | the exit that asks for CREATED to FAILED is always refused and leaves the Run where it was |
| Pipeline.RunTaskPipeline | src/agent_harness/application/orchestrator.py:495-878 | for every environment: it ends; without a Run only by death inside a transition, an answer that raises in the state it is asked in, a key or identifier in use, a database held for too long, this Run moved by someone else, or the exit above; a row is refused exactly when a key is reused; the record is legal and bounded, repeats the environment's answers in order, and has used exactly the turns and tokens they report; on success its journal has exactly the rows of the run, each with the orchestrator, the Run's correlation, its time, identifier, pending kind and failure, and the failure record is stored with stage and code; the final state and the failure follow from the answers; in a calm environment it returns a Run |
| Pipeline.RowsStoredExactly | src/agent_harness/persistence/migrations.py:199-244 | run alone, with new ids drawn for decisions and rework contracts, every row is stored if and only if the planner's contract id is not in use and the verifier's ids are not in use and pairwise different |
| Pipeline.CalmIsNotInterrupted | src/agent_harness/application/orchestrator.py:495-878 | when the Run is as read, nobody else moves or stores, the process lives, no answer raises, REWORK verdicts are complete and no identifier is used twice, nothing can end the pipeline without a Run |
| Pipeline.SomeCalm | src/agent_harness/application/orchestrator.py:495-878 | a calm environment exists, in which the planner proposes, the approvers agree and the verifier passes |
| Pipeline.RunIsBounded | src/agent_harness/application/orchestrator.py:666-878 | at most m + 1 worker and verifier calls and 8m + 10 transitions, m being the contract's rework iterations |
| Pipeline.NoCallOverBudget | src/agent_harness/application/usage.py:23-57 | every call is made with the turns the Run had used and all that planner, worker and verifier had reported before it within the ceiling |
| Pipeline.OverBudgetMeans | src/agent_harness/application/orchestrator.py:666-680 | a Run fails for its budget only with more turns used and reported than the ceiling has, or too many reworks |
| Pipeline.DecisionsAreOn | src/agent_harness/application/orchestrator.py:622-627 | the first decision is on the contract, each later one on a rework contract that asks for more, under the digest it was sealed with |
| Pipeline.ReworksMakeProgress | src/agent_harness/application/rework.py:73-97 | rework contracts are numbered 1, 2, 3, ... and no two in a row name the same failed criteria |
| Pipeline.MergeableMeans | src/agent_harness/application/verification.py:384-402 | READY_FOR_MERGE means: the last attempt's diff is true and clean under contract and ceiling, checks changed nothing, command criteria succeeded, mandatory criteria are met, evidence exists, nothing is NOT_VERIFIED, no BLOCKER or HIGH finding and no reported scope violation remains; no decision of the run was a denial and each that required approval got it; and final approval was given |
| Pipeline.NamesAreNotCompared | src/agent_harness/application/verification.py:379-402 | task, contract, snapshot and evidence set that a verdict names are never compared: any other names lead to the same acceptance and the same vouching, and to a rework contract in the same cases |
| Pipeline.SpotlessRunStaysInScope | src/agent_harness/application/orchestrator.py:876 | if all attempts of a run were spotless, the whole change since the checkout is in both scopes |
| Pipeline.MergedRunStaysInScopeExactly | src/agent_harness/application/orchestrator.py:868-876 | the whole change of a merged run stays in both scopes if and only if what had changed before its last attempt does |
| Pipeline.MergeDespiteForbiddenFile | src/agent_harness/application/orchestrator.py:666-878 | the pipeline, run in a concrete environment, merges a Run whose first attempt added a file the contract forbids, which is still there |
| Pipeline.GrantsOverTheRun | src/agent_harness/application/orchestrator.py:849-864 | over a run decisions never get milder, grants only grow, and stay within the ceiling and clear of hard-denied domains |
| Redaction.MatchIffHit | src/agent_harness/persistence/artifacts.py:59-65 | the matcher finds a match exactly where one of the pattern's shape starts |
| Redaction.FirstPattern | src/agent_harness/persistence/artifacts.py:60-60 | where a match of `sk-` tokens starts, character by character |
| Redaction.SecondPattern | src/agent_harness/persistence/artifacts.py:61-61 | where a match of `ghp_` tokens starts, character by character |
| Redaction.ThirdPattern | src/agent_harness/persistence/artifacts.py:62-62 | where a match of `AKIA` tokens starts, character by character |
| Redaction.FourthPattern | src/agent_harness/persistence/artifacts.py:63-63 | where a match of `xox?-` tokens starts, character by character |
| Redaction.FifthPattern | src/agent_harness/persistence/artifacts.py:64-64 | a private key: one of the four opening lines up to the nearest of the four closing lines after it, so that text between two keys stays |
| Redaction.WindowComesFromInput | src/agent_harness/persistence/artifacts.py:72-80 | a long bracket-free stretch of output is a stretch of input the scan passed over |
| Redaction.SubRemoves | src/agent_harness/persistence/artifacts.py:72-80 | after its own substitution a pattern is gone |
| Redaction.SubCreatesNothing | src/agent_harness/persistence/artifacts.py:72-80 | no substitution brings about a match of any pattern that was not there before |
| Redaction.SubOnlyMasks | src/agent_harness/persistence/artifacts.py:72-80 | a substitution only masks: putting the masked texts back gives the input, each of them is a match and stands as `[REDACTED]`, all else is copied |
| Redaction.WholeRunIsTaken | src/agent_harness/persistence/artifacts.py:59-65 | an open-ended token is masked to the end of its run |
| Redaction.RedactedInOrder | src/agent_harness/persistence/artifacts.py:72-80 | the five patterns are substituted one after the other, in their order |
| Redaction.RedactionIsComplete | src/agent_harness/persistence/artifacts.py:72-92 | after the five substitutions no pattern matches, and a second pass changes nothing |
| Redaction.Redact | src/agent_harness/persistence/artifacts.py:72-80 | nothing secret is left, the flag is true exactly when the input held a secret, clean content is untouched |
| BlobStore.BlobStore.WriteBlob | src/agent_harness/persistence/artifacts.py:100-155 | one write with a crash anywhere: over quota or known content stores nothing, an interrupted write leaves only staging, a completed one the (redacted) bytes under their digest |
| BlobStore.StoredMeans | src/agent_harness/persistence/artifacts.py:67-69 | what is stored: text, JSON, logs and diffs without their secrets, everything else, and what has none, as it came |
| BlobStore.BlobStore.ReadBlob | src/agent_harness/persistence/artifacts.py:158-172 | missing, corrupted or content, each exactly when; corrupted never comes from the store's own writes |
| BlobStore.BlobStore.PurgeEvidence | src/agent_harness/interfaces/cli.py:314-341 | run alone, the purge loop takes its artifacts one by one, counts the blobs it removes, and counts as shared exactly the references whose digest another row carries |
| BlobStore.WriteAlone | src/agent_harness/persistence/artifacts.py:117-155 | the statements of an undisturbed write add up to the whole write |
| BlobStore.PurgeAlone | src/agent_harness/interfaces/cli.py:331-340 | count, existence test, tombstone and unlink of an undisturbed purge add up to the whole purge |
| BlobStore.EveryWorldIsSound | src/agent_harness/persistence/artifacts.py:117-155 | in every interleaving of writes, row insertions and purges, statement by statement and with deaths anywhere, each blob is filed under the digest of its bytes |
| BlobStore.WriteReadsBack | src/agent_harness/persistence/artifacts.py:117-172 | a completed write reads back as what was stored, or the bytes collide under the digest |
| BlobStore.PurgeStartsExactly | src/agent_harness/interfaces/cli.py:331-335 | a purge sets out on a digest exactly when, at its count, the purged row alone carries it |
| BlobStore.PurgeRemovesExactly | src/agent_harness/interfaces/cli.py:335-340 | a blob disappears exactly at the unlink of a purge that set out on it |
| BlobStore.InsertedStaysReadable | src/agent_harness/interfaces/cli.py:331-340 | a row that has come in stays readable in every continuation that does not purge it, if and only if no purge is then between its count and its unlink on the digest |
| BlobStore.ReadsTheSame | src/agent_harness/persistence/sqlite.py:558-574 | and it reads the same bytes throughout, or two contents collide under the digest |
| BlobStore.WellTimedRowsStay | src/agent_harness/interfaces/cli.py:314-341 | in every run whose rows come in while their blob is there and no purge is on its way to it, each unpurged artifact is readable |
| BlobStore.LossLeavesTombstone | src/agent_harness/interfaces/cli.py:333-340 | no blob disappears without a tombstone |
| BlobStore.SecondArtifactCanLoseItsBlob | src/agent_harness/interfaces/cli.py:331-340 | two badly timed runs: a purge between write and row, and a row between a purge's count and its unlink, each leave a row whose blob is gone |
| Events.BuildResult | src/agent_harness/providers/codex.py:511-583 | when a result is a success, invalid output, cancelled or retriable, both ways |
| Events.LastTurnMeans | src/agent_harness/providers/codex.py:449-465 | the turn that counts is the last end of turn reported |
| Events.Invocation.RunWithRetries | src/agent_harness/providers/codex.py:430-509 | all events of all turns in order, with one warning before each retry, are appended and numbered 0, 1, 2, ... across retries; at most max + 1 turns, only completed invalid output is retried; done if and only if no turn of a retry that was due failed to be created |
| Events.EveryWorldFits | src/agent_harness/providers/codex.py:585-602 | in every interleaving of producer and consumers each consumer has delivered exactly what it took and its cursor had not seen |
| Events.ConsumerGetsEverything | src/agent_harness/providers/codex.py:585-602 | a consumer delivers in order, once, only after its cursor, and returns only when the producer is done and all of it is delivered |
| Events.ReturnsExactlyWhenDone | src/agent_harness/providers/codex.py:585-602 | a consumer can come to its end without the producer if and only if the invocation is done; on one that never is, it waits for ever |
| Events.PrefixPlusResume | src/agent_harness/providers/codex.py:585-602 | what one consumer got and what a second got by resuming after it are together the whole stream |
| Events.NormalizeEvents | src/agent_harness/providers/event_stream.py:24-55 | raises exactly on a foreign event or a sequence going back, at the first one; yields are strictly increasing; a strictly increasing stream passes unchanged; replaced events make it raise, for all inputs, if and only if the stream is out of order or has none |
| Events.StreamsAreNormal | src/agent_harness/providers/event_stream.py:39-55 | whatever a consumer receives passes the normaliser unchanged |
| Events.RepeatedNumberIsDropped | src/agent_harness/providers/event_stream.py:48-49 | in any orderly stream an event under the number just seen changes nothing, whatever it says |
| Events.ReplacedEventIsDropped | src/agent_harness/providers/event_stream.py:48-49 | a different event under the number just seen, dropped in silence |
| Bounded.RateLimiter.CheckAndRecord | src/agent_harness/execution/mcp_gateway.py:151-160 | the deque after a call, and whether it is let through, per tool |
| Bounded.WindowIsRecentHistory | src/agent_harness/execution/mcp_gateway.py:151-160 | on a clock that does not go back, a tool's deque is exactly its accepted calls of the sixty seconds before its latest call |
| Bounded.RefusedExactlyAtTheLimit | src/agent_harness/execution/mcp_gateway.py:151-160 | a call is refused exactly when that many accepted calls already reach the limit |
| Bounded.NoBurstBeyondTheLimit | src/agent_harness/execution/mcp_gateway.py:140-160 | under a fixed limit no closed interval of sixty seconds holds more accepted calls than the limit |
| Bounded.ToolsAreIndependent | src/agent_harness/execution/mcp_gateway.py:148-160 | a tool fares as if it were alone |
| Bounded.Drain | src/agent_harness/execution/process.py:162-183 | the first `max_bytes` bytes however the stream is cut, flag and cap event exactly when there were more |
| Bounded.ContentOfChunks | src/agent_harness/execution/process.py:166-182 | any cut into non-empty reads amounts to the same content |

## Left out

- Database.Database.InsertRun: keeps the invariants for a Run that is unfinished and has no disposition, as all callers insert; what the statements about journals say of one inserted already finished is not modelled.
- Interleaving.HistoriesAreSerial: processes read a Run and then request one transition each; a process that writes several rows in one transaction does not occur in the code and is not modelled.
- Actors.RunRecoveryScan: states what the scan does when it runs alone; with others at work each of its requests is one of the processes of `Interleaving`, and a lost race raises, as in the code.
- Pipeline.RunIsBounded: counts acknowledged transitions; a process that dies between the commit and its acknowledgement has made one more.
- Pipeline.RunTaskPipeline: death is placed inside the transitions; a process that dies between two of them leaves the tables of the transition before, and ends in no way the statements do not cover.
- Events.ConsumerGetsEverything: says nothing about when a consumer is scheduled; it states what a consumer has received whenever it is looked at and when it returns.
- Bounded.WindowIsRecentHistory: times are reals, so rounding of floating-point times is not modelled.
- Free text: event types, failure details and categories, prompts, report formats, SQL text, JSON and field formats; a failure record of the pipeline has an empty detail, and a task contract carries its digest as a field.
- Costs and token figures beyond their sum; the code sets no ceiling on them.
- The alphabetical order inside sorted lists: path lists carry their elements once, rule and capability lists are sets.
- `find_test_mutations`: it only flags paths, by a second glob dialect, and decides nothing.
- The contents of the decision, contract, verification and rework rows; the pipeline stores them for audit and reads none of them back, so only their keys are modelled.
- Git, worktrees, Docker and sandbox profiles, process trees and job objects; their outcomes are answers of the environment.
- The Claude adapter's stream, which repeats the modelled one; message normalisation of both SDKs; sessions and resume.
- Repository locks, provider registry, retention checks, slug and path validators, the fake provider, the demo command.
