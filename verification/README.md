# Pre-upgrade report, usage backfills and connector subscriptions: a Dafny model

This project models three parts of the repository and proves what they are for.

1. **The pre-upgrade access report** (`scripts/iam/preflight/`). It compares the previous
   authorization rules with the policy engine, for every person, token, project and service, and
   explains and totals the differences. The report assumes that the engine agrees with its
   independent arithmetic. Here that is a theorem: the request gate
   (`src/lib/iam/enforce.ts`, `projectNarrowing.ts`, `projectMembership.ts`, `entities.ts`), the
   managed policies (`managedPolicies.ts`) and the level rules (`src/lib/security/rbac.ts`) are
   modelled as written, over an arbitrary service catalog, and `Engine.EngineMatchesOracle` shows
   that sets of services and thresholds on levels give one answer.
2. **The usage and trace backfills** (`scripts/backfill-*.ts`). Paged scans fill keyed buckets, which
   are written as additive chunks behind a guard on days that already have rows. A run may be cut off
   after any chunk and repeated over any range.
3. **The connector subscription table** (`src/__tests__/helpers/fakeConnectorHost.ts`), a
   reference-counted table behind the contract of `src/enterprise/connector-triggers.ts`.

## Layout

| module | content |
|---|---|
| `Options`, `Levels`, `Rbac` | levels and checks; role defaults, own levels and group grants, highest wins |
| `Projects`, `Oracle`, `Engine` | project lists; the report's arithmetic; the gate's principal and the managed policies |
| `Access` | which project a member lands in, before and after |
| `Attribution`, `Scopes`, `Json`, `Memo` | causes; the rules read off the stored texts; JSON text; shared engine answers |
| `Memberships`, `Orphans`, `Preflight`, `Deferred` | requests from the directory; rows of deleted groups; evaluating one context; entries not read yet |
| `Accumulate`, `Rollups`, `Lines`, `Workspace`, `Report`, `EndToEnd` | folding observations; closing rollups; what lines and buckets say; a whole workspace; totals over workspaces; what the exit code says |
| `Census`, `Sampling`, `Sums` | the data census; who is evaluated under a cap; finite sums and lists |
| `Rollup`, `Buckets`, `TraceUsage`, `TraceSums`, `TraceDays`, `UsageDaily` | the backfill protocol; aggregation; replaying sessions, what they add up to, on one day and on several; the daily backfill |
| `TraceFields`, `TraceMigration` | moving trace fields to columns and recomputing session totals; what is taken from one event |
| `Subscriptions` | the subscription table and its host |

Pure code is modelled by functions and lemmas. Code that changes things step by step is a class or a
method with loops, proved equal to a specification function; the theorems are about that function.

## Where the code falls short of what it promises

Each of these is kept as the code has it, with an input that shows it and the exact condition.

- A person can be a member of a deleted group that left project rows behind. The oracle reads those
  rows, the engine does not, and the report then counts oracle mismatches against a healthy engine.
  `Orphans.MismatchExactly` says for everyone on exactly which checks; `Orphans.OrphanRowsOccur` and
  `Orphans.OrphanRowsRaise` show it in either direction, `Orphans.NoMismatch` that it needs such rows.
- "If every stored No access counted" is computed by moving the activation instant to 0. A row without
  a usable date stays hidden even then (`Deferred.UndatedRowStaysHidden`); `Deferred.ZeroInstantExactly`
  says for which services the report is then wrong.
- `backfill-trace-fields.ts` says it is idempotent. With an empty-string `finishReason` column over a
  truncation reason, the first run writes the column but not the truncation count, and the second run
  corrects it. A second run writes exactly then (`TraceFields.SecondRunWritesExactly`); a third never does.
- Undated sessions and events are booked on the day the script runs, so a run on another day books them
  again (`TraceDays.UndatedIsCountedTwice`). Runs on different days work on one plan exactly when
  nothing that reaches a bucket is undated (`TraceDays.FixedExactly`).
- The day guard lists at most a fixed number of rows. A day with rows is not shown exactly when the
  newer rows alone fill that limit (`Rollup.HiddenExactly`), and its rows are then doubled by the next
  run (`Rollup.SecondRunDoubles`, `Rollup.LimitDoubles`).
- The single-model fast path drops cached-write tokens (`TraceUsage.FastPathLosesWrites`,
  `TraceUsage.FastPathDropsCachedWrites`).
- The census counts an assignment without a project id as narrowing although it can narrow nobody
  (`Census.StrayRowIsCounted`, `Census.NarrowingIsExact`).

## Model

| member | source | states |
|---|---|---|
| `Rbac.ComputeWorkspaceLevel` | src/lib/security/rbac.ts:588-604 | the loop with its early exit computes the level that `WorkspaceLevelIsHighest` characterises |
| `Rbac.WorkspaceLevelIsHighest` | src/lib/security/rbac.ts:583-604 | highest wins: the level bounds the own level and every group grant, and is one of them |
| `Rbac.OwnLevelFromText` | src/lib/security/rbac.ts:478-576 | a person's level from the literal role and stored text: owner, admin, member and other roles, the four level names, and the registered default |
| `Rbac.DefinitionIsFirst` | src/lib/security/rbac.ts:396-399 | the first definition registered under an id counts |
| `Projects.DistinctMembers` | scripts/iam/preflight/oracle.ts:108-112 | the project list holds each non-empty id once and nothing else |
| `Projects.DistinctPrefix` | scripts/iam/preflight/access.ts:29-43 | adding assignments only extends the list, so the first project stays first |
| `Projects.DistinctByList` | scripts/iam/preflight/oracle.ts:108-112 | the oracle's list-searching loop builds that list |
| `Projects.DistinctBySet` | scripts/iam/preflight/access.ts:29-43 | the access report's set-guarded loop builds the same list |
| `Oracle.ComputeRowLevels` | scripts/iam/preflight/oracle.ts:64-72 | the loop keeps exactly the entries that count at the activation instant |
| `Oracle.IgnoredIsUnread` | scripts/iam/preflight/oracle.ts:64-81 | what is ignored of a row is exactly what is stored and not read, every entry the literal "none"; nothing of a row saved from the instant on |
| `Oracle.RaiseByEntries` | scripts/iam/preflight/oracle.ts:86-89 | folding one map entry by entry is the pointwise "highest wins" of both maps |
| `Oracle.ComputeHighestPerService` | scripts/iam/preflight/oracle.ts:83-92 | the nested loop computes the map that `HighestIsMaximum` characterises |
| `Oracle.HighestIsMaximum` | scripts/iam/preflight/oracle.ts:83-92 | a service is named exactly when some map names it, with the maximum of its levels |
| `Oracle.SelectProject` | scripts/iam/preflight/oracle.ts:108-122 | a token's exact project, a session's wanted, default or first one |
| `Oracle.ActiveIsAssigned` | scripts/iam/preflight/oracle.ts:108-140 | a selected project is always an assigned one: the final `any` test never fails |
| `Oracle.CollectGroup` | scripts/iam/preflight/oracle.ts:133-138 | the group scan collects every matching row, and its flag says whether there was one |
| `Oracle.CollectSources` | scripts/iam/preflight/oracle.ts:124-139 | the first own row, else a legacy id, plus all group rows; the flag is "assigned at all" |
| `Oracle.ComputeMembership` | scripts/iam/preflight/oracle.ts:105-140 | the whole scan, with its `any` guard, is the membership function that needs no guard |
| `Oracle.OracleChecks` | scripts/iam/preflight/oracle.ts:143-161 | the three answers are thresholds on min(workspace level, token scope, project level) |
| `Oracle.SingleRow` | scripts/iam/preflight/oracle.ts:105-140 | a row taken alone, own or inherited, is the membership with that row's levels |
| `Oracle.EarlierActivationOnlyRevokes` | scripts/iam/preflight/oracle.ts:57-151 | lowering the instant keeps the project and never raises a level; a level that changes drops to exactly "No access" |
| `Engine.AtLeastMembers` | src/lib/iam/entities.ts:48-57 | a service is in a level set exactly when it is registered and its level reaches the rank |
| `Engine.ComputeSets` | src/lib/iam/entities.ts:48-57 | one pass over the catalog fills the three sets |
| `Engine.DeniedMembers` | src/lib/iam/projectNarrowing.ts:66-78 | a deny set holds exactly the services the project names with a lower level |
| `Engine.SameProject` | src/lib/iam/projectNarrowing.ts:96-104 | the gate's project selection and the oracle's name the same project |
| `Engine.SameNarrowing` | src/lib/iam/projectNarrowing.ts:186-215 | the gate narrows exactly when the oracle finds a membership, by the same levels |
| `Engine.HoldsIsThreshold` | src/lib/iam/managedPolicies.ts:124-137 | set membership under the escalating write rule is a threshold on the level |
| `Engine.CapsAreThreshold` | src/lib/iam/entities.ts:87-92 | the same for the caps of a token scope |
| `Engine.DeniedIsThreshold` | src/lib/iam/managedPolicies.ts:157-162 | the project forbids apply exactly below the required level |
| `Engine.PermitImpliesNoForbid` | src/lib/iam/managedPolicies.ts:35-38 | without custom policies the boundary forbids never change a decision |
| `Engine.VerdictIsThreshold` | src/lib/iam/managedPolicies.ts:124-163 | the verdict is a threshold on min(workspace, project, scope) for any narrowing |
| `Engine.EngineMatchesOracle` | src/lib/iam/enforce.ts:306-376 | for every catalog, request, service and check the engine's verdict is the oracle's answer |
| `Engine.CustomPoliciesStayInside` | src/lib/iam/managedPolicies.ts:25-33 | no custom policy whatsoever lets a request exceed the token scope or the project levels |
| `Scopes.ScopeLimitsOracle` | scripts/iam/preflight/oracle.ts:143-151 | a service a token scope does not name is refused on all checks; a named one is limited to "read", "write" or "admin" as stored |
| `Scopes.ScopeLimitsBefore` | scripts/iam/preflight/before.ts:35-48 | the same for the previous release |
| `Scopes.ScopeLimitsEngine` | src/lib/iam/entities.ts:87-92 | the same for the engine |
| `Scopes.PrivilegedKeepTheirs` | scripts/iam/preflight/oracle.ts:99-106 | an owner or admin, by their own or a group's role, is narrowed by no project |
| `Scopes.TokensHadNoGroups` | scripts/iam/preflight/before.ts:26-32 | the previous release gave a token none of its owner's groups, a person all of theirs |
| `Scopes.LosesExactly` | scripts/iam/preflight/model.ts:158-169 | an answer is lost exactly when it was given before and the active project names a lower level |
| `Scopes.GainsExactly` | scripts/iam/preflight/model.ts:158-169 | an answer is gained exactly by a token whose owner's groups reach it, whose own level does not, and whom no project refuses |
| `Scopes.MaskedExactly` | scripts/iam/preflight/model.ts:163-167 | an answer is masked exactly when the groups would give it and the project takes it back |
| `Scopes.LevelRoundTrip` | scripts/iam/preflight/model.ts:46-51 | the printed level is the level behind the answers; on an administration service "write" prints as "read" |
| `Access.AccessibleProjectIds` | scripts/iam/preflight/access.ts:29-43 | the loop over the three sources computes the accessible list |
| `Access.BeforeIsPrefix` | scripts/iam/preflight/access.ts:29-43 | the before-upgrade list is a prefix of the after-upgrade list |
| `Access.NeverForbidden` | scripts/iam/preflight/access.ts:53-66 | the "Forbidden" answer cannot occur |
| `Access.AnswersAre` | scripts/iam/preflight/access.ts:53-66 | the answers spelled out: 403 without a project, the cookie, default or first project, 404 when it is gone |
| `Access.ScenariosListed` | scripts/iam/preflight/access.ts:97-120 | one scenario without a cookie, then one per accessible project in order |
| `Access.ChangeExactly` | scripts/iam/preflight/access.ts:53-82 | which of the five changes a member sees, decided from assignments, wanted project and existing projects |
| `Access.LosesExactly` | scripts/iam/preflight/access.ts:75-82 | access is lost exactly when the wanted project is group-only and gone while the earlier landing project exists |
| `Access.ScenariosComplete` | scripts/iam/preflight/access.ts:92-120 | any cookie outside the listed scenarios changes nothing or repeats a listed one |
| `Access.OracleProjectIsLanding` | scripts/iam/preflight/access.ts:53-66 | the oracle narrows by the project the member lands in, and is empty exactly on "No project assigned" |
| `Attribution.PreviousAnswers` | scripts/iam/preflight/before.ts:35-48 | the loop over the checks gives the previous release's three answers |
| `Attribution.EngineReproducesArithmetic` | scripts/iam/preflight/run.ts:371-381 | the engine fed the previous inputs is the previous release; without project levels it is the new workspace rules |
| `Attribution.UpThenDown` | scripts/iam/preflight/model.ts:104-114 | token groups only raise a level, project levels only lower it, and a session gains nothing |
| `Attribution.CauseIsDirection` | scripts/iam/preflight/model.ts:158-169 | the cause of an answer says exactly which way it moved; "masked" and "token-groups" only for tokens |
| `Attribution.CausesAreDirections` | scripts/iam/preflight/run.ts:444-463 | the same for the three causes the runner records |
| `Attribution.AnswersAreLadders` | scripts/iam/preflight/model.ts:158-182 | both answer triples are ladders, and no service both tightens and loosens |
| `Attribution.MergeExplained` | scripts/iam/preflight/model.ts:172-182 | merging such causes yields one that says which way the service moved |
| `Attribution.ServiceCause` | scripts/iam/preflight/model.ts:158-182 | project-narrowing iff something tightens, token-groups iff something loosens, same/masked iff nothing changes; no combined or integrity cause |
| `Attribution.DisagreementIsBlamed` | scripts/iam/preflight/model.ts:158-169 | an engine answer off the arithmetic is "custom-policies" where there are some, else "parity-mismatch" or "unexplained"; otherwise custom policies change no classification |
| `Attribution.MergeIsWorst` | scripts/iam/preflight/model.ts:171-182 | the merged cause is the worst of its parts, or the combination of groups and narrowing |
| `Attribution.MergeKeepsIntegrity` | scripts/iam/preflight/model.ts:172-182 | a merged cause is an integrity cause exactly when one of its parts is |
| `Attribution.ClassifyBlamesCustom` | scripts/iam/preflight/model.ts:158-182 | with custom policies no classification is an integrity cause, whatever the answers |
| `Attribution.CustomPoliciesAreBlamed` | scripts/iam/preflight/run.ts:444-463 | under any custom policies the report blames them and not itself |
| `Attribution.LevelsFollowAnswers` | scripts/iam/preflight/accumulate.ts:312-315 | the printed level moves the way the answers do, so the tie-break on counts is never needed |
| `Json.EscapeUnique` | scripts/iam/preflight/memo.ts:30-38 | the escape of a character (section 7 of RFC 8259) is uniquely readable, whatever follows |
| `Json.EscapedUnique` | scripts/iam/preflight/memo.ts:30-38 | so is the escaped string |
| `Json.RenderUnique` | scripts/iam/preflight/memo.ts:30-38 | so is any JSON value in front of a delimiter |
| `Json.ItemsUnique` | scripts/iam/preflight/memo.ts:30-38 | so are the items of an array or object |
| `Json.RenderInjective` | scripts/iam/preflight/memo.ts:30-38 | two JSON values with the same text are the same value |
| `Memo.SignatureInjective` | scripts/iam/preflight/memo.ts:29-39 | the signature determines channel, kind, level sets, project limits and token caps |
| `Memo.ManagedIsSignatureOnly` | scripts/iam/preflight/run.ts:321-322 | with the managed policies, equal signatures get equal answers: sharing is sound |
| `Memo.DecisionMemo.constructor` | scripts/iam/preflight/memo.ts:41-47 | a new memo is empty, with its bound |
| `Memo.DecisionMemo.Get` | scripts/iam/preflight/memo.ts:49-54 | a lookup counts exactly one hit or miss and changes no entry |
| `Memo.DecisionMemo.Set` | scripts/iam/preflight/memo.ts:56-64 | keeps the answer unless a new signature would exceed the bound |
| `Memo.Decider.DecideAll` | scripts/iam/preflight/run.ts:323-333 | one call is one step of the run; without a memo it asks the engine |
| `Memo.Decider.DecideSequence` | scripts/iam/preflight/run.ts:309-333 | a whole run gives the engine's own answers, and no failure count exactly when the engine has none |
| `Memo.StepIsDirect` | scripts/iam/preflight/run.ts:323-333 | every step keeps the memo faithful to the engine and within its bound |
| `Memo.FoundAfterInsert` | scripts/iam/preflight/memo.ts:49-64 | within the bound a stored answer is found again, nothing else is disturbed, and past it nothing is stored |
| `Memo.RepeatIsHit` | scripts/iam/preflight/run.ts:323-333 | within the bound, asking again is a hit with the same answer and no new failure |
| `Memo.EverythingIsKept` | scripts/iam/preflight/memo.ts:46-64 | with room for every caller, what was asked once is never asked again |
| `Memo.MemoisedRunIsDirect` | scripts/iam/preflight/memo.ts:41-69 | for every sequence and bound: direct answers, hits + misses = lookups, bounded, zero failures iff the direct run has zero |
| `Memberships.ComputeGrants` | scripts/iam/preflight/run.ts:295-302 | the grants of the groups that exist and grant something, in membership order |
| `Memberships.GrantsAre` | scripts/iam/preflight/census.ts:21-41 | a group counts exactly when it exists, is one of the person's, and has a role or an entry |
| `Memberships.GrantsLoseNothing` | scripts/iam/preflight/census.ts:21-41 | leaving the other groups out changes no workspace level |
| `Memberships.RowsInOrder` | scripts/iam/preflight/run.ts:305-306 | they come group by group in membership order |
| `Memberships.RowsAre` | scripts/iam/preflight/run.ts:305-306 | the rows are those stored for the person's groups |
| `Memberships.RowsOfExisting` | scripts/iam/preflight/run.ts:303-306 | without orphan rows, the rows of all groups are those of the existing ones |
| `Memberships.SameRequestExactly` | scripts/iam/preflight/run.ts:303-306 | gate and oracle are given the same request exactly when no deleted group of the person left rows behind |
| `Orphans.NoMismatch` | scripts/iam/preflight/run.ts:435-442 | engine and oracle agree about everyone whose groups left no rows behind |
| `Orphans.MismatchExactly` | scripts/iam/preflight/run.ts:401-442 | for everyone: a mismatch exactly on the checks the workspace level allows and exactly one of the two memberships, with and without the rows of deleted groups, refuses |
| `Orphans.OrphanRowsMismatch` | scripts/iam/preflight/run.ts:401-442 | for a member with only orphan rows those are the checks the orphan rows refuse and the workspace level allows |
| `Orphans.OrphanRowsOccur` | scripts/iam/preflight/run.ts:303-306 | the oracle refuses and the engine allows, on every check the member's own level allows |
| `Orphans.OrphanRowsRaise` | scripts/iam/preflight/run.ts:303-306 | the opposite also occurs: an orphan row of a project the member also has raises the oracle's level, and the engine refuses what the oracle allows |
| `Preflight.Consult` | scripts/iam/preflight/run.ts:323-333 | through the memo, each caller still gets the engine's answer about them, whatever engine it is |
| `Preflight.Attribute` | scripts/iam/preflight/run.ts:444-463 | the extra questions and the classification give the specified causes, with or without custom policies |
| `Preflight.EvaluateService` | scripts/iam/preflight/run.ts:415-471 | one loop pass records the specified observation and counts the differing answers, under custom policies none |
| `Preflight.Evaluate` | scripts/iam/preflight/run.ts:344-474 | with any engine, custom policies or not, memoised or not: the observations and mismatches of asking each time; no failure counted by an engine that has none |
| `Preflight.ManagedObservation` | scripts/iam/preflight/run.ts:309-333 | through the managed policies these are the observations the attribution results speak about |
| `Preflight.AnswersAgree` | scripts/iam/preflight/run.ts:435-442 | all three answers agree without orphan rows |
| `Preflight.ReportsNoMismatch` | scripts/iam/preflight/run.ts:435-442 | without orphan rows the mismatch count is zero over any services |
| `Preflight.DifferencesCount` | scripts/iam/preflight/run.ts:437-441 | the mismatch count of a service is its number of checks answered differently |
| `Preflight.NothingCounted` | scripts/iam/preflight/run.ts:436-442 | nothing is counted exactly when every answer agrees; under custom policies never |
| `Deferred.NothingDeferred` | scripts/iam/preflight/run.ts:383-399 | the gate on the second evaluation loses nothing: no ignored entry, no changed level at any earlier instant |
| `Deferred.DeferredRevokes` | scripts/iam/preflight/run.ts:465-469 | a deferred observation takes a service the caller still has away completely |
| `Deferred.ZeroInstantReadsRow` | scripts/iam/preflight/run.ts:391-397 | instant 0 reads a row in full exactly when the row has a usable date or stores no "No access" |
| `Deferred.UndatedRowStaysHidden` | scripts/iam/preflight/oracle.ts:57-72 | an undated row that says "none" is read as empty at instant 0 |
| `Deferred.ZeroInstantExactly` | scripts/iam/preflight/run.ts:383-399 | the level at instant 0 differs from the level with every row counted exactly when the rows read store the service, all of them hidden at 0, for a caller who has the service |
| `Accumulate.TenantAccumulator.RecordAnswer` | scripts/iam/preflight/accumulate.ts:275-309 | one answer: the counters and the bucket of its cause |
| `Accumulate.TenantAccumulator.RecordAnswers` | scripts/iam/preflight/accumulate.ts:275-309 | the loop over the checks, with the causes it collects and whether anything differs |
| `Accumulate.TenantAccumulator.RecordService` | scripts/iam/preflight/accumulate.ts:268-339 | one service: figures, buckets, the principal's change line and deferred line |
| `Accumulate.TenantAccumulator.RecordContext` | scripts/iam/preflight/accumulate.ts:263-339 | one context is one step of the fold |
| `Accumulate.FileAdds` | scripts/iam/preflight/accumulate.ts:292-302 | filing a difference raises each figure over all buckets exactly once |
| `Accumulate.AnswersKeepBalance` | scripts/iam/preflight/accumulate.ts:275-309 | any answers keep the balance and add one decision each |
| `Accumulate.FiguresBalance` | scripts/iam/preflight/accumulate.ts:263-309 | after any contexts: decisions = 3 x services = same + masked + buckets; totals and integrity counters are those of the buckets |
| `Accumulate.UnsetCause` | scripts/iam/preflight/accumulate.ts:281 | a changed answer without a cause is the custom policies', or unexplained without any |
| `Lines.FiguresAreAnswers` | scripts/iam/preflight/accumulate.ts:283-308 | over any contexts, "same", "masked" and every bucket count exactly the answers of their cause |
| `Lines.PairsAreFilings` | scripts/iam/preflight/accumulate.ts:303-305 | a bucket's pairs are exactly the principals and services with an answer of its cause |
| `Lines.BucketsNameTheirs` | scripts/iam/preflight/accumulate.ts:303-305 | its principals and services are those of its pairs |
| `Lines.CausesAreFilings` | scripts/iam/preflight/accumulate.ts:306 | the causes listed for a principal are exactly those it has an answer filed under |
| `Lines.KindIsFirst` | scripts/iam/preflight/accumulate.ts:241-248 | a principal is listed exactly when a context named it, with the kind of its first context |
| `Lines.DirectionsAreRight` | scripts/iam/preflight/accumulate.ts:312-321 | over any contexts, every line whose level moves is stored with the direction of that move |
| `Lines.OneWayDirection` | scripts/iam/preflight/accumulate.ts:314-315 | a service that only loses or only gains answers gets that direction, even where its level stays |
| `Lines.DeferredAreLosses` | scripts/iam/preflight/accumulate.ts:326-338 | the deferred lines are exactly the levels some observation would lose, with their projects |
| `Accumulate.ClassifyIsHonest` | scripts/iam/preflight/model.ts:158-169 | what is classified same or masked did not change |
| `Accumulate.ClassifiedIsHonest` | scripts/iam/preflight/accumulate.ts:281 | an observation whose causes come from `classifyCheck` or are unset files no changed answer as same or masked |
| `Accumulate.TotalsAreMoves` | scripts/iam/preflight/accumulate.ts:293-302 | tighten and loosen are exactly the numbers of answers that moved each way |
| `Rollups.ListEntries` | scripts/iam/preflight/accumulate.ts:399-415 | the nested loops visit every (principal, change, project) line exactly once |
| `Rollups.ListChanged` | scripts/iam/preflight/accumulate.ts:400-412 | every changed principal is listed once; changed users + changed tokens = listed |
| `Rollups.ListDeferred` | scripts/iam/preflight/accumulate.ts:431-443 | every principal with a deferred line is listed once, and every such line once |
| `Rollups.RollUp` | scripts/iam/preflight/accumulate.ts:415-428 | both rollup maps are filled line by line |
| `Rollups.Finish` | scripts/iam/preflight/accumulate.ts:390-446 | both rollups sum to the service changes and agree on tighten and loosen; changed users and tokens counted by kind; the deferred list is complete |
| `Rollups.RowCounts` | scripts/iam/preflight/accumulate.ts:416-427 | a row counts exactly the lines with its label, each way |
| `Rollups.RowNames` | scripts/iam/preflight/accumulate.ts:416-427 | a row exists exactly for a label in use, naming exactly its principals and services or projects |
| `Rollups.ProjectRow` | scripts/iam/preflight/accumulate.ts:416-421 | the row of a project: its lines each way, their people and their services |
| `Rollups.ServiceRow` | scripts/iam/preflight/accumulate.ts:422-427 | the row of a service: its lines each way, their people and their projects |
| `Lines.RollupsCountTightened` | scripts/iam/preflight/accumulate.ts:413-428 | for distinct contexts both rollups count under "tighten" exactly the observations in which an answer is lost |
| `Rollups.RollupsAgree` | scripts/iam/preflight/accumulate.ts:392-428 | the two rollups of the same lines have equal totals, both making up all lines |
| `Rollups.LineMeansChange` | scripts/iam/preflight/accumulate.ts:292-311 | a service gets a line exactly when its answers differ |
| `Rollups.ServiceChangesAreObservations` | scripts/iam/preflight/accumulate.ts:311-324 | with each context and service observed once, the service changes number exactly the changed observations |
| `Workspace.Compare` | scripts/iam/preflight/run.ts:491-565 | the loops over people and tokens: the accumulator holds the fold of all observations, and the mismatches are those of all cases |
| `Workspace.ObservationTold` | scripts/iam/preflight/run.ts:444-465 | every recorded observation is filed under a cause that says which way each answer moved |
| `Workspace.LineMatchesCause` | scripts/iam/preflight/accumulate.ts:311-320 | a line's cause is project-narrowing exactly when its direction is tighten, token-groups exactly when loosen |
| `Workspace.WorkspaceIsClean` | scripts/iam/preflight/run.ts:344-565 | for every directory: no parity mismatch, nothing unexplained, no other cause, each bucket of one direction and making up its total, no person filed as gaining |
| `Workspace.WorkspaceAgrees` | scripts/iam/preflight/run.ts:435-442 | without orphan rows a workspace has no oracle mismatch |
| `Workspace.ObservedIsHonest` | scripts/iam/preflight/run.ts:444-465 | whatever the engine answers, an observation files no changed answer as same or masked |
| `Workspace.WorkspaceTotalsAreMoves` | scripts/iam/preflight/accumulate.ts:293-302 | so for any directory and any engine the direction totals are the numbers of moved answers |
| `Workspace.WorkspaceServiceChanges` | scripts/iam/preflight/accumulate.ts:311-324 | and the service changes are the changed observations, for distinct contexts |
| `Workspace.WorkspaceRollups` | scripts/iam/preflight/accumulate.ts:413-428 | for any directory under the managed policies the rollups' "tighten" is the number of services in which an answer is lost |
| `Workspace.MismatchesAreCounted` | scripts/iam/preflight/run.ts:435-442 | a workspace counts no mismatch exactly when engine and oracle agree on every case, service and check |
| `EndToEnd.IntegrityIsMismatch` | scripts/iam/preflight/report.ts:148-150 | a workspace flags an integrity problem exactly when engine and oracle differ on some case, service and check, never without orphan rows |
| `EndToEnd.RunTenant` | scripts/iam/preflight/run.ts:491-588 | the same for the figures a run computes, with a fresh memo or without |
| `EndToEnd.ReportIsSound` | scripts/iam/preflight/report.ts:86-150 | over any workspaces without orphan rows and custom policies the totals flag no integrity problem |
| `Report.AddCauses` | scripts/iam/preflight/report.ts:120-127 | the loop adds the cause figures of one workspace pointwise |
| `Report.AddSurfaces` | scripts/iam/preflight/report.ts:134-138 | the loop adds the surface counts, keyed by id |
| `Report.AddCounts` | scripts/iam/preflight/report.ts:139-141 | the loop adds the access summary pointwise |
| `Report.AddTenant` | scripts/iam/preflight/report.ts:108-143 | one workspace adds its own number to every number shown |
| `Report.BuildTotals` | scripts/iam/preflight/report.ts:86-146 | every number of the totals is its sum over the workspaces |
| `Report.ConcatAdds` | scripts/iam/preflight/report.ts:86-146 | joining two lists of workspaces adds every number |
| `Report.OrderDoesNotMatter` | scripts/iam/preflight/report.ts:86-146 | reordering the workspaces changes no number |
| `Report.TotalsBalance` | scripts/iam/preflight/report.ts:112-115 | decisions = same + masked + differs carries over to the totals |
| `Report.IntegrityIsSome` | scripts/iam/preflight/report.ts:148-150 | the totals flag an integrity problem exactly when some workspace does |
| `Report.TotalsAccounted` | scripts/iam/preflight/report.ts:108-127 | for workspaces accumulated from any contexts, the total differences each way are those of the six causes |
| `Report.TotalsIgnoreLists` | scripts/iam/preflight/run.ts:594-607 | leaving the lists out changes no total |
| `Report.StripDropsLists` | scripts/iam/preflight/run.ts:594-607 | what is left out: every per-person list, all but the first fifty skipped principals |
| `Census.CountRow` | scripts/iam/preflight/census.ts:125-140 | the loop body with its early exits |
| `Census.BuildCensus` | scripts/iam/preflight/census.ts:114-142 | the nested loops over users and rows |
| `Census.CensusBalances` | scripts/iam/preflight/census.ts:114-142 | with-levels = on-privileged + narrowing + no-op; if-resaved <= ignored rows <= with-levels <= rows, for every directory |
| `Census.CountersAreRows` | scripts/iam/preflight/census.ts:114-142 | each of the eight counters is the sum of what the directory's rows add to it |
| `Census.GrantsForAre` | scripts/iam/preflight/census.ts:32-41 | the groups behind a person's level |
| `Census.NarrowingIsExact` | scripts/iam/preflight/census.ts:109-139 | taken alone, a row lowers an oracle level exactly when it counts as narrowing and names a project |
| `Census.StrayRowIsCounted` | scripts/iam/preflight/census.ts:109-139 | a low level stored without a project id is counted as narrowing and lowers nothing |
| `Census.ResavedIsExact` | scripts/iam/preflight/census.ts:129-140 | a row that names a project counts as narrowing-if-resaved exactly when something in it is ignored and saving it again lowers a level |
| `Census.NarrowingCountsLowering` | scripts/iam/preflight/census.ts:122-142 | the narrowing count of any directory is its number of rows that lower an oracle level plus those that would if they named a project |
| `Sampling.PrivilegedScoreLowest` | scripts/iam/preflight/order.ts:15-23 | a score is negative exactly for owners and admins |
| `Sampling.ScoreIsMadeOf` | scripts/iam/preflight/order.ts:15-23 | five for an assignment with levels, one for any other, one for a group and two per project row of it, one for own levels |
| `Sampling.TokenScoreIsLexicographic` | scripts/iam/preflight/order.ts:33-37 | the weights never mix: gaining owner, then unscoped, then without a project |
| `Sampling.OwnerGainsThroughGroups` | scripts/iam/preflight/order.ts:33-37 | the owner gains exactly through an existing group with a role or an entry |
| `Sampling.SortIsStable` | scripts/iam/preflight/order.ts:25-31 | the order is a permutation by falling score, ties in database order |
| `Sampling.OrderIsUnique` | scripts/iam/preflight/order.ts:26-31 | no other order meets that description, whatever sorts it |
| `Sampling.TakeCapped` | scripts/iam/preflight/run.ts:491-503 | the capped loop evaluates the first eligible ones up to the cap; truncated exactly when someone is cut off |
| `Sampling.SampleCoversEveryone` | scripts/iam/preflight/run.ts:491-521 | evaluated, skipped, absent and cut off make up the directory |
| `Sampling.EvaluatedAreHighest` | scripts/iam/preflight/run.ts:499-503 | everyone evaluated comes before everyone cut off |
| `Sampling.PrivilegedComeLast` | scripts/iam/preflight/order.ts:4-9 | an owner or admin is evaluated only after every eligible other member, and never instead of one |
| `Sampling.SamplePeople` | scripts/iam/preflight/run.ts:491-503 | the people loop: who is skipped, absent, evaluated and cut off, by the stored flags |
| `Sampling.SampleTokens` | scripts/iam/preflight/run.ts:523-549 | the token loop: evaluated, skipped and cut off make up all tokens, the evaluated before every one cut off |
| `Rollup.ApplyAllAdds` | src/lib/database/sqlite/usage.mixin.ts:31-125 | additive writes: a stored counter grows by the sum of the increments with its key |
| `Rollup.UsageTable.IncrementUsageDaily` | src/lib/database/sqlite/usage.mixin.ts:31-125 | one call applies its increments in order |
| `Rollup.UsageTable.WriteChunks` | scripts/backfill-trace-usage.ts:487-489 | the chunk loop, cut off anywhere, has written each increment before the cut exactly once |
| `Rollup.KeptPlusSkipped` | scripts/backfill-usage-daily.ts:221-226 | written and skipped rows make up every sum |
| `Rollup.ListingIsComplete` | scripts/backfill-trace-usage.ts:246-253 | a listing within its limit shows every row of its range |
| `Rollup.RunKeepsPrefixes` | scripts/backfill-trace-usage.ts:244-308 | one run leaves a day with rows alone and gives a new day a prefix of its plan |
| `Rollup.RunsKeepPrefixes` | scripts/backfill-trace-usage.ts:244-308 | the same invariant over any sequence of cut-off runs |
| `Rollup.NeverOvercounts` | scripts/backfill-trace-usage.ts:435-489 | over any such runs no stored counter exceeds the true sum for its key |
| `Rollup.OneRunPerDay` | scripts/backfill-trace-usage.ts:253 | a run neither changes nor adds a row on a day that already has one |
| `Rollup.UncutFillsDays` | scripts/backfill-trace-usage.ts:435-489 | after an uncut run every day of its range with data has rows, complete ones where it was empty |
| `Rollup.RowsPersist` | scripts/backfill-trace-usage.ts:487-489 | a stored row stays, whatever runs follow |
| `Rollup.LaterRunsWriteNothing` | scripts/backfill-trace-usage.ts:244-259 | after an uncut run, every later run over its range or a part of it writes nothing, whatever runs lie between |
| `Rollup.UncutRunIsExact` | scripts/backfill-trace-usage.ts:435-489 | one uncut run from an empty rollup stores exactly the true sums |
| `Rollup.UncutRunAdds` | scripts/backfill-trace-usage.ts:244-308 | an uncut run adds the whole true sum of exactly the days its listing did not show |
| `Rollup.RangeIsInclusive` | scripts/backfill-trace-usage.ts:279-280 | an uncut run from empty books the first and the last day of its range, and no day outside |
| `Rollup.HiddenExactly` | scripts/backfill-trace-usage.ts:246-253 | a day with rows is missing from the listing exactly when the newer rows alone fill the limit |
| `Rollup.SecondRunDoubles` | scripts/backfill-trace-usage.ts:244-308 | after two uncut runs from empty a row holds twice its true sum exactly when the newer rows fill the listing limit, else exactly its sum |
| `Rollup.LimitDoubles` | scripts/backfill-trace-usage.ts:246-253 | a reachable table: two days, a limit of one, and the older day is doubled |
| `Buckets.BucketsAreSums` | scripts/backfill-trace-usage.ts:268-308 | each bucket is the sum of the contributions with its key on the wanted days |
| `Buckets.NameIsFirst` | scripts/backfill-trace-usage.ts:288-302 | a bucket goes by the name it was first seen with |
| `Buckets.SkipThenAggregate` | scripts/backfill-trace-usage.ts:279-286 | skipping days while aggregating equals dropping them afterwards, order and names included |
| `Buckets.RunPlanIsKeep` | scripts/backfill-trace-usage.ts:435-468 | the increments of a run are the full plan cut down to the run's days |
| `Buckets.AggregationConserves` | scripts/backfill-trace-usage.ts:287-307 | under any choice of keys the buckets hold what was contributed |
| `Buckets.DayTotalIsContributed` | scripts/backfill-trace-usage.ts:435-468 | the rows of a day carry exactly what was contributed on it |
| `Buckets.PlanIsTrueSum` | scripts/backfill-trace-usage.ts:435-468 | a planned row is the sum of the contributions booked under it |
| `TraceUsage.Aggregator.AddToBucket` | scripts/backfill-trace-usage.ts:268-308 | one contribution into the table, with its four filters |
| `TraceUsage.Aggregator.AccountFromEvents` | scripts/backfill-trace-usage.ts:333-354 | the events of a session, models and gateway marker considered |
| `TraceUsage.Aggregator.ScanFast` | scripts/backfill-trace-usage.ts:382-407 | the fast path of a page with its counters, and the sessions left for their events |
| `TraceUsage.Aggregator.ScanEvents` | scripts/backfill-trace-usage.ts:412-426 | the event path over those sessions, and how many events it read |
| `TraceUsage.Aggregator.ScanPage` | scripts/backfill-trace-usage.ts:382-426 | one page: fast path, then events |
| `TraceUsage.Aggregator.ScanAll` | scripts/backfill-trace-usage.ts:357-433 | the paging ends and sees every session exactly once |
| `TraceUsage.Backfill` | scripts/backfill-trace-usage.ts:244-489 | a whole run is one step of the rollup protocol on the plan of the data |
| `TraceDays.FixedExactly` | scripts/backfill-trace-usage.ts:333-407 | runs on two different days work on the same plan exactly when everything that reaches a bucket carries its own day |
| `TraceDays.DatedPlanIsFixed` | scripts/backfill-trace-usage.ts:435-468 | on such data the plan does not depend on the day of the run |
| `TraceDays.BackfillNeverOvercounts` | scripts/backfill-trace-usage.ts:244-489 | runs on any days, cut off anywhere, never store more than the true sums of such sessions |
| `TraceDays.UndatedIsCountedTwice` | scripts/backfill-trace-usage.ts:398 | two uncut runs from empty, on two days, over an undated session each book it in full |
| `TraceUsage.FullIsTrueSum` | scripts/backfill-trace-usage.ts:435-468 | every counter of a planned row: the scanned contributions booked under it; total tokens are its input plus output, the cost that of its buckets |
| `TraceSums.FirstNonEmptyIs` | scripts/backfill-trace-usage.ts:335-338 | the model of an event without one is the first non-empty name |
| `TraceSums.ScanIsSessions` | scripts/backfill-trace-usage.ts:333-426 | told from the sessions alone: nothing without tokens or model, own totals with one model, the taken events with more, each under its project, agent, model and day, in every counter |
| `TraceSums.PlanIsSessions` | scripts/backfill-trace-usage.ts:435-468 | the rows planned for an agent and day carry exactly those requests and tokens |
| `TraceSums.PlanTotalTokens` | scripts/backfill-trace-usage.ts:464 | their total tokens are the sessions' input and output |
| `TraceUsage.EventsFillOneBucket` | scripts/backfill-trace-usage.ts:333-354 | the events of a one-model, one-day session fill one bucket with their sums |
| `TraceUsage.FastPathAgrees` | scripts/backfill-trace-usage.ts:379-407 | per field, the fast path fills every bucket like the event path exactly when the session's total is its events' sum |
| `TraceUsage.FastPathDropsCachedWrites` | scripts/backfill-trace-usage.ts:394-403 | on cached writes they agree exactly when no replayed event with tokens has any |
| `TraceUsage.FastPathLosesWrites` | scripts/backfill-trace-usage.ts:394-403 | a session where the fast path books fewer cached writes than its events |
| `UsageDaily.DailyAggregator.AddLog` | scripts/backfill-usage-daily.ts:181-214 | one log into its bucket; an undated one is passed over |
| `UsageDaily.DailyAggregator.AddPage` | scripts/backfill-usage-daily.ts:181-214 | one page of logs |
| `UsageDaily.DailyAggregator.ScanModel` | scripts/backfill-usage-daily.ts:173-218 | the paging ends and sees every log exactly once |
| `UsageDaily.DailyAggregator.ScanModels` | scripts/backfill-usage-daily.ts:171-219 | all models |
| `UsageDaily.SplitRows` | scripts/backfill-usage-daily.ts:221-245 | the rows to write and the skipped rows |
| `UsageDaily.WindowIsFilter` | scripts/backfill-usage-daily.ts:175-180 | asking the store for a window equals filtering the days of all logs |
| `UsageDaily.DailyPlan` | scripts/backfill-usage-daily.ts:171-226 | aggregating then dropping skipped days is the plan the protocol starts from |
| `UsageDaily.BackfillDaily` | scripts/backfill-usage-daily.ts:167-265 | a whole run is one step of the rollup protocol |
| `UsageDaily.DailyFullIsTrueSum` | scripts/backfill-usage-daily.ts:181-214 | a planned row is the sum, field by field, of the dated logs of its project, model and day |
| `UsageDaily.DailyBackfillIsExact` | scripts/backfill-usage-daily.ts:167-265 | one uncut run from empty stores exactly that |
| `TraceFields.NormalizeIdempotent` | src/lib/shared/finishReason.ts:20-68 | a persisted reason is read back as stored |
| `TraceFields.ComputeEventPatch` | scripts/backfill-trace-fields.ts:157-197 | the patch with its two key loops |
| `TraceFields.SearchReason` | scripts/backfill-trace-fields.ts:164-175 | the first legacy key with a plausible reason |
| `TraceFields.StripKeys` | scripts/backfill-trace-fields.ts:176-183 | all legacy keys are removed once a reason is taken |
| `TraceFields.SessionStore.ProcessEvent` | scripts/backfill-trace-fields.ts:381-399 | one event: written exactly when there is a patch and this is no dry run |
| `TraceFields.SessionStore.ProcessEvents` | scripts/backfill-trace-fields.ts:379-404 | the event loop: migrated events and the tally |
| `TraceFields.SessionStore.ProcessSession` | scripts/backfill-trace-fields.ts:360-423 | the session after the run, its statistics, and whether anything was written |
| `TraceFields.MigratedIsDone` | scripts/backfill-trace-fields.ts:157-197 | a migrated event has nothing left to migrate |
| `TraceFields.SecondTally` | scripts/backfill-trace-fields.ts:157-209 | a second pass finds nothing and counts exactly the hidden truncations more |
| `TraceFields.SecondRunWritesExactly` | scripts/backfill-trace-fields.ts:360-423 | a second run writes exactly when a truncation was hidden by an empty column |
| `TraceFields.ThirdRunWritesNothing` | scripts/backfill-trace-fields.ts:360-423 | for every session a third run writes and changes nothing |
| `TraceFields.SecondRunWritesNothing` | scripts/backfill-trace-fields.ts:360-423 | without empty-string columns the second run already writes nothing |
| `TraceFields.EmptyColumnIsRecounted` | scripts/backfill-trace-fields.ts:164-205 | a concrete session where the second run writes |
| `TraceFields.TwoRunsSettle` | scripts/backfill-trace-fields.ts:360-423 | two runs end with all events migrated, the tokens the sum of the positive finite token columns, the truncations the columns with one of the five literal reasons |
| `TraceFields.OneRunStores` | scripts/backfill-trace-fields.ts:360-423 | one run stores the right tokens and falls short by exactly the hidden truncations |
| `TraceMigration.NormalizeIs` | src/lib/shared/finishReason.ts:20-68 | a reason is kept exactly when it has, trimmed, 1 to 64 plausible characters, in lower case |
| `TraceMigration.TrimIs` | src/lib/shared/finishReason.ts:20-68 | trimming removes the surrounding white space and nothing else |
| `TraceMigration.SpacesAre` | src/lib/shared/finishReason.ts:20-68 | white space by its code points |
| `TraceMigration.FindReasonIs` | scripts/backfill-trace-fields.ts:131-175 | the four legacy keys in their priority, the list key by its first text or its first comma part |
| `TraceMigration.MigratedColumns` | scripts/backfill-trace-fields.ts:164-193 | the columns after a migration: what was taken, else what was there |
| `TraceMigration.MigratedMetadata` | scripts/backfill-trace-fields.ts:176-196 | the metadata after it: without the keys of what was taken, otherwise untouched |
| `TraceMigration.StatsAre` | scripts/backfill-trace-fields.ts:379-422 | the statistics count the events scanned and the reasons and token counts taken |
| `TraceFields.InterruptionIsHarmless` | scripts/backfill-trace-fields.ts:360-423 | a run that dies after any event does not change where two complete runs end |
| `TraceFields.DryRunAnnounces` | scripts/backfill-trace-fields.ts:360-423 | a dry run reports the finds and recomputations of the real run |
| `Subscriptions.SharedKey` | src/__tests__/helpers/fakeConnectorHost.ts:116 | keys are equal exactly when connector, trigger, parameters and schedule are |
| `Subscriptions.AttachKeepsInv` | src/__tests__/helpers/fakeConnectorHost.ts:176-200 | attaching keeps one subscription per key and ids within the counter |
| `Subscriptions.DetachKeepsInv` | src/__tests__/helpers/fakeConnectorHost.ts:202-211 | detaching keeps every live subscription bound |
| `Subscriptions.AttachExactly` | src/__tests__/helpers/fakeConnectorHost.ts:176-200 | attaching binds the trigger to the subscription of its key and touches no other; a new one is as the settings say |
| `Subscriptions.DetachExactly` | src/__tests__/helpers/fakeConnectorHost.ts:202-211 | detaching unbinds there, drops exactly with the last binding, touches no other |
| `Subscriptions.RotateExactly` | src/__tests__/helpers/fakeConnectorHost.ts:229-241 | rotation changes a webhook subscription's secret and grace instant and nothing of a poll one |
| `Subscriptions.RetryExactly` | src/__tests__/helpers/fakeConnectorHost.ts:243-252 | retrying makes the subscription active and changes nothing else |
| `Subscriptions.UnboundChangesNothing` | src/__tests__/helpers/fakeConnectorHost.ts:202-252 | a trigger without a live subscription changes nothing |
| `Subscriptions.StepKeepsInv` | src/__tests__/helpers/fakeConnectorHost.ts:176-252 | so does every operation, and new ids lie beyond the counter |
| `Subscriptions.ReachableInv` | src/__tests__/helpers/fakeConnectorHost.ts:176-252 | the invariant in every reachable table |
| `Subscriptions.IdsAreNeverReused` | src/__tests__/helpers/fakeConnectorHost.ts:184-188 | a gone id never comes back, and a live one never changes its key |
| `Subscriptions.AttachDetachRestores` | src/enterprise/connector-triggers.ts:92-108 | attach then detach restores the subscriptions exactly when the trigger was not bound there already |
| `Subscriptions.SharingIsExact` | src/enterprise/connector-triggers.ts:92-108 | two triggers share a subscription exactly when their settings agree on what identifies it |
| `Subscriptions.Host.FindByKey` | src/__tests__/helpers/fakeConnectorHost.ts:182 | finds the live subscription with the key, or none exists |
| `Subscriptions.Host.AttachTrigger` | src/__tests__/helpers/fakeConnectorHost.ts:176-200 | binds the trigger; the secret is shown only by the attach that created the subscription |
| `Subscriptions.Host.DetachTrigger` | src/__tests__/helpers/fakeConnectorHost.ts:202-211 | unbinds the trigger and removes an unbound subscription |
| `Subscriptions.Host.RotateSecret` | src/__tests__/helpers/fakeConnectorHost.ts:229-241 | replaces the secret of a webhook subscription only |
| `Subscriptions.Host.RetryRegistration` | src/__tests__/helpers/fakeConnectorHost.ts:243-252 | makes the subscription active and nothing else |

## Left out

- Cedar itself: policies are predicates on the attributes they read; errors inside the engine appear only as the `failed` answers of `Memo.Decider`.
- The portal, messaging and agent policies, which never match the service actions the report asks about; project roles inside a membership, which the managed policies do not read.
- What custom policies say: `Preflight.Evaluate` takes any engine, and beyond the causes and bounds proved for custom policies `Workspace.WorkspaceIsClean` and `EndToEnd` are about workspaces without them.
- The newly gated surfaces, the access summary and the cause summaries' sorted lists inside the accumulator, and the ten integrity examples it keeps; `Report` sums their counts. Their order in the totals is left out.
- Sorting of the printed lists; composite string keys are tuples, so a separator inside a service id or label is not modelled.
- The census counts of groups, tokens and roles, which are plain filters.
- Permission values that are neither absent nor plain objects (strings, arrays) count as holding no entries.
- Project ids: null and the empty string are one value, as every test in the source treats them.
- Lone surrogates in JSON strings, and the order of object members given twice.
- Costs and latencies are exact naturals; floating-point rounding is left out. A UTC day is a day number.
- `--force` and `--reprice` modes, dry runs of the usage backfills, retries and sleeps. A chunk is written as a whole; the two concurrent event fetches are taken in list order, and a session whose events cannot be read is left out.
- Other writers of the rollup during a backfill, and logs that change between pages.
- Rollup.NeverOvercounts: for ranges that hold no more rows than the listing limit; past it `Rollup.SecondRunDoubles` and `Rollup.UncutRunAdds` say what is added.
- In the trace-field migration: a column stored as null counts as absent; two events of a session with the same id and failed writes are left out.
- The host's `prepare`, `view` and `sample`, its call log and its failure switches. A subscription id is the number in it, and a rotated secret is one fixed value, as in the source.
- Loading, redaction, rendering, command-line options, signals and progress output.
