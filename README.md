# Personal missions API: mission lifecycle model

A Dafny model of the mission lifecycle in a small game-quest HTTP API
(PHP, Slim and Doctrine DBAL). A user asks for a mission. The system inserts
the user on first use, picks a mission type and draws an objective value
from a static per-type range table. It then stores a mission with status
`assigned` and progress 0. Progress updates move the progress towards the
objective and the mission's status through `assigned → in_progress →
completed`. A completion request marks the rewards as claimed.

The model has four parts.

- **The Mission entity** (`mission.dfy`, module `MissionEntity`).
  - The record's readonly properties are `const` fields of class
    `Mission`. Its mutable properties (`status`, `progress`,
    `rewardsClaimed`) are `var` fields.
  - The record source declares no methods. Its operations `updateProgress`,
    `markRewardsClaimed`, `canClaimRewards`, `isCompleted` and `isExpired`
    are **test-derived**: they are modelled exactly as the entity tests
    assert them.
  - Each state change is specified by a pure function on `MissionState`
    (`UpdateProgressOutcome`, `ClaimOutcome`). The class methods are
    proved to follow those functions.
  - The CompleteMission use case (`complete_mission.dfy`) is also
    test-derived, from its tests' guard order.
- **The services** (`progress_service.dfy`, `generation_service.dfy`).
  - `MissionProgressUpdateService::updateMissionProgress` and
    `MissionGenerationService::generateMissionForUser` are methods over a
    `Database` object (`store.dfy`). That object holds the `users`,
    `missions` and `mission_types` tables as maps.
  - The objective table (`objectives.dfy`) appears in the generation
    service and, identically, in the front controller. It is defined once
    and shared.
- **The HTTP routes of `public/index.php`** (`handlers.dfy`).
  - The routes import the services but never call them. Each route repeats
    the logic inline, and differs from the services:
    - the progress route clamps upward but never changes the status;
    - the complete route sets `completed` and claimed unconditionally;
    - the generate route crashes on an empty `mission_types` table.
  - Lemmas state these differences against the service and the entity.
- **Value objects**: `User` (`user.dfy`, a class with two mutators),
  `MissionType` (`mission_type.dfy`) and `Reward` (`reward.dfy`).

Randomness, ids and the clock become inputs.
- `ORDER BY RAND()`, `array_rand` and `rand` are nondeterministic choices
  (`:|`) within the range the code gives them.
- `uniqid()` is a parameter `newId` that is not yet a stored mission id.
- Each `new DateTimeImmutable()` of a generation request is its own
  integer reading in seconds, carried in a `Clock` value: the new user's
  `created_at`, the reading `+1 day` (`+ 86400`) is added to for
  `expires_at`, the new mission's `created_at`, and the `createdAt` handed
  back. No order between them is assumed, so `expires_at` is one day after
  its own reading, not after `created_at`.

The model follows the code, which:
- has no terminal-state guard and no lower clamp in the progress service;
- does not filter mission types by their requirements;
- does not reject a blank user id in the generation service; only the
  generate route does;
- does not require a claimable mission in the complete route.

Two choices where the tests are silent:
- `updateProgress` refuses a `failed` mission as well, it being terminal
  like `completed` and `expired`; no test asserts it.
- `isExpired` is true when `now >= expiresAt`. The tests only fix an hour
  in the past and an hour in the future.

## Model

| member | source | states |
|---|---|---|
| MissionEntity.ParseStatus | src/Entities/Mission.php:7-11 | a stored string reads as a status only when it is that status's own constant |
| MissionEntity.StatusNameRoundTrip | src/Entities/Mission.php:7-11 | the five status constants are distinct and each reads back as its status, so a status is always one of the five |
| MissionEntity.Mission.constructor | src/Entities/Mission.php:13-24 | every property is set from its argument; id, userId, missionTypeId, createdAt, expiresAt and objectiveValue are constants nothing can change |
| MissionEntity.UpdateProgressOutcome | tests/Entities/MissionTest.php:59-114 | (test-derived) updateProgress is refused exactly on completed, failed and expired missions; after a successful update progress ≤ objective and the claim flag is unchanged |
| MissionEntity.UpdateRefusesTerminal | tests/Entities/MissionTest.php:81-114 | (test-derived) the refusal reads "Cannot update progress for a mission with status: " followed by the status |
| MissionEntity.UpdateStartsAssigned | tests/Entities/MissionTest.php:59-73 | (test-derived) an assigned mission staying below the objective gets progress old + delta and status in_progress |
| MissionEntity.UpdateCompletesAtObjective | tests/Entities/MissionTest.php:75-78 | (test-derived) an update reaching the objective sets progress to exactly the objective and status completed |
| MissionEntity.UpdateKeepsConsistent | tests/Entities/MissionTest.php:59-79 | (test-derived) a non-negative update keeps 0 ≤ progress ≤ objective and "claimed ⇒ completed" |
| MissionEntity.UpdateProgressTestScenario | tests/Entities/MissionTest.php:59-79 | (test-derived) assigned 0, +3 of 10 gives in_progress 3; then +7 of 10 gives completed 10 |
| MissionEntity.ClaimOutcome | tests/Entities/MissionTest.php:116-167 | (test-derived) markRewardsClaimed succeeds iff canClaimRewards holds, and then only the claim flag changes; a mission not completed is refused with "Cannot claim rewards for a mission that is not completed.", a claimed one with "Rewards for this mission have already been claimed." |
| MissionEntity.ClaimKeepsConsistent | tests/Entities/MissionTest.php:116-132 | (test-derived) claiming keeps the entity invariant |
| MissionEntity.ClaimNotIdempotent | tests/Entities/MissionTest.php:151-167 | (test-derived) a second claim always fails with "Rewards for this mission have already been claimed." |
| MissionEntity.IsCompletedTestScenario | tests/Entities/MissionTest.php:37-57 | (test-derived) isCompleted is true for completed and false for in_progress |
| MissionEntity.CanClaimRewardsTestScenario | tests/Entities/MissionTest.php:169-204 | (test-derived) canClaimRewards holds for completed-unclaimed only, not for completed-claimed or in_progress |
| MissionEntity.IsCompleted | tests/Entities/MissionTest.php:37-57 | (test-derived) a completed mission is one updateProgress refuses |
| MissionEntity.CanClaimRewards | tests/Entities/MissionTest.php:169-204 | (test-derived) only a completed mission can claim, and a completed one can exactly when its rewards are unclaimed |
| MissionEntity.ExpiryIsPermanent | tests/Entities/MissionTest.php:13-35 | (test-derived) isExpired (now ≥ expiresAt) once true stays true at every later reading |
| MissionEntity.IsExpiredTestScenario | tests/Entities/MissionTest.php:13-35 | (test-derived) an expiry an hour ago is expired, an hour ahead is not |
| MissionEntity.Mission.UpdateProgress | tests/Entities/MissionTest.php:59-114 | (test-derived) the new state is UpdateProgressOutcome's; a refusal returns its message and changes nothing |
| MissionEntity.Mission.MarkRewardsClaimed | tests/Entities/MissionTest.php:116-167 | (test-derived) the new state is ClaimOutcome's; a refusal returns its message and changes nothing |
| CompleteMission.CompleteRefusal | tests/UseCases/CompleteMission/UseCaseTest.php:80-145 | (test-derived) checks run in order owner, isCompleted, canClaimRewards with their messages; all pass iff owner matches and the mission can claim |
| CompleteMission.PassedChecksClaim | tests/UseCases/CompleteMission/UseCaseTest.php:30-60 | (test-derived) once all checks pass, markRewardsClaimed cannot refuse |
| CompleteMission.Execute | tests/UseCases/CompleteMission/UseCaseTest.php:30-145 | (test-derived) "Mission not found" first; markRewardsClaimed and save happen exactly when every check passes, and a refusal changes nothing |
| Objectives.Lookup | src/Services/MissionGenerationService.php:192 | the range found is the one of the last entry listing that type id (a later duplicate key wins); none is found only when no entry has that id |
| Objectives.TableWellFormed | src/Services/MissionGenerationService.php:55-191 | every one of the 131 listed ranges satisfies 1 ≤ min ≤ max |
| Objectives.ObjectiveRange | src/Services/MissionGenerationService.php:192 | a listed type gets the range of its last entry, an unlisted one [5,15], and always 1 ≤ lo ≤ hi |
| Objectives.DrawObjective | src/Services/MissionGenerationService.php:193 | the drawn objective lies in the type's inclusive range, hence is ≥ 1 |
| Store.WithUser | src/Services/MissionGenerationService.php:26-41 | an absent user gets exactly one new row (username = id, level 1, experience 0); existing rows are untouched |
| Store.MissionFromRow | src/Services/MissionProgressUpdateService.php:72-82 | the returned Mission mirrors every column of the row |
| ProgressService.Transition | src/Services/MissionProgressUpdateService.php:49-58 | new progress ≤ objective, and ≥ 0 for non-negative inputs; status becomes completed iff the objective is reached or it already was |
| ProgressService.TransitionSaturates | src/Services/MissionProgressUpdateService.php:53-55 | progress + delta ≥ objective stores exactly the objective and completed |
| ProgressService.TransitionStartsAssigned | src/Services/MissionProgressUpdateService.php:56-57 | below the objective an assigned mission becomes in_progress at progress + delta |
| ProgressService.TransitionKeepsOtherStatus | src/Services/MissionProgressUpdateService.php:52-58 | below the objective any non-assigned status, terminal ones included, is kept |
| ProgressService.TransitionRevivesTerminal | src/Services/MissionProgressUpdateService.php:52-58 | with no terminal guard, a failed or expired mission reaching its objective becomes completed |
| ProgressService.TransitionCanGoNegative | src/Services/MissionProgressUpdateService.php:49 | with no lower clamp, progress 0 and delta -1 store -1 |
| ProgressService.TransitionAgreesWithEntity | src/Services/MissionProgressUpdateService.php:49-58 | on a non-terminal mission the service's transition equals the entity's updateProgress |
| ProgressService.UpdateMissionProgress | src/Services/MissionProgressUpdateService.php:23-85 | unknown id then foreign owner are refused with no write; otherwise only that row's progress and status change, per Transition, and the result mirrors the stored row |
| GenerationService.GenerateMissionForUser | src/Services/MissionGenerationService.php:23-227 | user inserted on first use; no type gives "No suitable mission types found" with no mission insert; otherwise one row is inserted (assigned, progress 0, unclaimed, created_at its own reading, expiry one day after its own reading, objective in range) that the returned Mission matches except createdAt |
| Handlers.CollectMissionTypeIds | public/index.php:94-100 | the gathered list holds every mission_types id exactly once and nothing else |
| Handlers.Generate | public/index.php:64-283 | a missing, "" or "0" userId gives 400 with no write; otherwise user upsert, 500 with no mission on an empty type table, else one assigned row with an in-range objective and a payload without objectiveValue |
| Handlers.ListUserMissions | public/index.php:285-311 | the list holds exactly the stored missions of that user, each once, with every column |
| Handlers.ClampProgress | public/index.php:339-344 | the new progress is progress + delta, lowered to the objective when above it |
| Handlers.Progress | public/index.php:313-383 | missing delta 400, unknown id 404, neither writing; otherwise only progress changes, with no status change and no ownership or terminal check |
| Handlers.ForceComplete | public/index.php:390-393 | the row with that id becomes completed and claimed, other columns and other rows unchanged; an unknown id changes nothing |
| Handlers.Complete | public/index.php:385-426 | the table after the request is ForceComplete's; an unknown id gives 404 |
| Handlers.ForceCompleteIdempotent | public/index.php:390-393 | completing twice equals completing once |
| Handlers.ForceCompleteBypassesClaimGuard | public/index.php:390 | the route marks claimed a mission that markRewardsClaimed would refuse (not completed, or already claimed) |
| Handlers.ForceCompleteLeavesProgress | public/index.php:390 | every freshly generated mission completed by the route keeps progress 0 below its objective |
| Handlers.ClampAgreesWithService | public/index.php:341-344 | the route's new progress always equals the progress service's |
| Handlers.ProgressRouteNeverCompletes | public/index.php:346-350 | every assigned mission brought to its objective stays assigned at the objective through the route but is completed by the service |
| UserEntity.ValidationError | src/Entities/User.php:30-35 | level < 1 is refused first, then experience < 0; both pass iff level ≥ 1 and experience ≥ 0 |
| UserEntity.DefaultsAreValid | src/Entities/User.php:24-25 | the defaults level 1, experience 0 pass validation |
| UserEntity.User.Init | src/Entities/User.php:20-28 | a validated user holds its arguments and the invariant level ≥ 1, experience ≥ 0 |
| UserEntity.User.Create | src/Entities/User.php:20-36 | construction fails with the validation message exactly when validation fails, else yields a valid user with those fields |
| UserEntity.User.AddExperience | src/Entities/User.php:77-84 | a negative amount is refused and changes nothing; otherwise experience grows by exactly the amount; level unchanged, invariant kept |
| UserEntity.User.LevelUp | src/Entities/User.php:89-92 | level grows by exactly one, experience unchanged, invariant kept |
| MissionTypeEntity.NewMissionType | src/Entities/MissionType.php:19-61 | refused iff the id is "" or "0"; otherwise each getter returns its argument |
| MissionTypeEntity.NewMissionTypeDefaults | src/Entities/MissionType.php:25-30 | requirements default to empty; the ids "" and "0" are refused |
| RewardEntity.NewReward | src/Entities/Reward.php:15-22 | refused iff the amount is negative (0 accepted); otherwise type and amount are kept |
| RewardEntity.GetType | src/Entities/Reward.php:24-27 | getType with the amount rebuilds the Reward it came from |
| RewardEntity.GetAmount | src/Entities/Reward.php:29-32 | (corrected) getAmount with the type rebuilds the Reward it came from |
| RewardEntity.NewRewardGetters | src/Entities/Reward.php:24-32 | getType and the corrected getAmount return the constructor's type and amount |
| RewardEntity.GetAmountAsWritten | src/Entities/Reward.php:29-32 | getAmount as written always fails |
| RewardEntity.GetAmountAsWrittenLosesAmount | src/Entities/Reward.php:29-32 | for Reward("gold", 50) getAmount as written does not return 50, the corrected one does |

## Left out

- Environment loading, the DI container, the database connection singleton,
  middleware (CORS, body parsing, error rendering), the OPTIONS route and
  the app start-up: plumbing with no domain logic.
- JSON encoding, headers and date formats (`Y-m-d H:i:s`, ISO-8601):
  responses keep only the status code and the payload fields, and
  timestamps are integers.
- SQL text and prepared statements: tables are maps, reads are lookups and
  writes are map updates. Database failures, for example an insert
  rejected by the store, are not modelled.
- Random distributions: only the set of possible outcomes is modelled.
- Concurrency: simultaneous requests updating the same mission are not
  modelled. Each request runs alone.
- PHP integer overflow: integers are unbounded. At PHP_INT_MAX, `levelUp`
  and `addExperience` throw, because their properties are typed `int`.
  `progress + delta` in the progress service and the progress route becomes
  a float instead. The model captures neither.
- Loose request typing: the request body's `userId` is an optional string
  and `progressDelta` an optional int. Non-string or non-integer JSON values
  are not modelled.
- The Mission constructor defaults that the tests rely on (for example
  omitting status or progress): the record shows none, so the model's
  constructor takes every field.
- The UpdateMissionProgress, GenerateMissionForUser and GetUserMissions use
  cases and the repository interfaces are not part of this model: their
  classes are not available. Their tests assert calls on those
  repositories (a `findByRequirements(['level' => 1])` type query, a
  mission-type lookup after a progress update) that are out of scope.
- The generate route's debug `error_log` line after a user insert: logging
  only, with no effect on the tables or the response.
- Handlers.ListUserMissions: the order of the list is the database's and is
  left open.
- Handlers.Progress: the second "Mission not found" branch, after re-reading
  the row just written, cannot be taken when requests run one at a time, so
  it is not modelled.
- The `users.email` column and the mission type name returned with the
  payload: the core never writes them. The name is read as an optional value.

## Findings

| source | as written | input that shows it | evidently intended | confidence | as-written member | corrected member |
|---|---|---|---|---|---|---|
| src/Entities/Reward.php:29-32 | `getAmount()` returns the undefined local `$amount`, so it yields null and fails the `int` return type with a TypeError | `new Reward('gold', 50)` then `getAmount()` | return the stored `$this->amount` | high (not executed) | RewardEntity.GetAmountAsWritten (shown by RewardEntity.GetAmountAsWrittenLosesAmount) | RewardEntity.GetAmount (proved in RewardEntity.NewRewardGetters) |
