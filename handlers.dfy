/**
 * The four routes of the HTTP front controller. They do not call the
 * services; each works on the tables itself, and where it differs from the
 * services and the entity the lemmas below say how. Only the status code and
 * the payload's fields are kept of each response.
 */
module Handlers {
  import opened Wrappers
  import opened Php
  import opened MissionEntity
  import opened Objectives
  import opened Store
  import ProgressService

  /** The mission payload of the generate, progress and complete routes (no objectiveValue). */
  datatype MissionView = MissionView(
    id: string,
    userId: string,
    missionTypeId: string,
    missionName: Option<string>,
    status: Status,
    progress: int,
    createdAt: int,
    expiresAt: int,
    rewardsClaimed: bool)

  datatype Response =
    | ErrorResponse(code: int, message: string)
    | MissionResponse(view: MissionView)
    | ListResponse(missions: seq<MissionRow>)

  /** The uncaught error `array_rand` raises on an empty array, rendered by the error middleware. */
  const EmptyTypesError := ErrorResponse(500, "array_rand(): Argument #1 ($array) cannot be empty")

  /** `SELECT name FROM mission_types WHERE id = ?` with `fetchOne()`: no row gives false, here None. */
  function TypeName(missionTypes: map<string, string>, typeId: string): Option<string> {
    if typeId in missionTypes then Some(missionTypes[typeId]) else None
  }

  function ViewOf(row: MissionRow, name: Option<string>): MissionView {
    MissionView(row.id, row.userId, row.missionTypeId, name, row.status, row.progress,
                row.createdAt, row.expiresAt, row.rewardsClaimed)
  }

  predicate Distinct(ids: seq<string>) {
    forall i, j :: 0 <= i < j < |ids| ==> ids[i] != ids[j]
  }

  /** `SELECT id FROM mission_types` and the loop that gathers the ids: each id exactly once. */
  method CollectMissionTypeIds(missionTypes: map<string, string>) returns (ids: seq<string>)
    ensures forall i :: 0 <= i < |ids| ==> ids[i] in missionTypes
    ensures forall t :: t in missionTypes ==> t in ids
    ensures Distinct(ids)
  {
    ids := [];
    var rest := missionTypes.Keys;
    while rest != {}
      invariant rest <= missionTypes.Keys
      invariant forall i :: 0 <= i < |ids| ==> ids[i] in missionTypes && ids[i] !in rest
      invariant forall t :: t in missionTypes ==> t in rest || t in ids
      invariant Distinct(ids)
      decreases rest
    {
      var t :| t in rest;
      ids := ids + [t];
      rest := rest - {t};
    }
  }

  /**
   * POST /api/missions/generate. A missing or falsy userId is refused with
   * 400 before any write. Otherwise the user is inserted on first use, a
   * type is picked among all mission_types ids (`array_rand`, which fails on
   * an empty table after the user insert), the objective is drawn from the
   * shared table and the mission is inserted. `newId` is what `uniqid()`
   * returns; `clock` holds the route's four separate clock readings, the last
   * one being the payload's createdAt.
   */
  method Generate(db: Database, userId: Option<string>, newId: string, clock: Clock)
    returns (resp: Response)
    requires db.Valid() && newId !in db.missions
    modifies db
    ensures db.Valid()
    ensures userId.None? || IsEmptyString(userId.value) ==>
              && resp == ErrorResponse(400, "User ID is required")
              && db.users == old(db.users) && db.missions == old(db.missions)
    ensures userId.Some? && !IsEmptyString(userId.value) ==>
              db.users == WithUser(old(db.users), userId.value, clock.userCreated)
    ensures userId.Some? && !IsEmptyString(userId.value) && db.missionTypes == map[] ==>
              resp == EmptyTypesError && db.missions == old(db.missions)
    ensures userId.Some? && !IsEmptyString(userId.value) && db.missionTypes != map[] ==>
              && resp.MissionResponse?
              && var typeId := resp.view.missionTypeId;
              && typeId in db.missionTypes
              && newId in db.missions
              && var row := db.missions[newId];
              && db.missions == old(db.missions)[newId := row]
              && row == NewMissionRow(newId, userId.value, typeId, clock, row.objectiveValue)
              && ObjectiveRange(typeId).lo <= row.objectiveValue <= ObjectiveRange(typeId).hi
              && resp.view == MissionView(newId, userId.value, typeId, Some(db.missionTypes[typeId]),
                                          Assigned, 0, clock.returned, clock.expiryBase + OneDay, false)
  {
    if userId.None? || IsEmptyString(userId.value) {
      return ErrorResponse(400, "User ID is required");
    }
    var uid := userId.value;
    if uid !in db.users {
      db.users := db.users[uid := NewUserRow(uid, clock.userCreated)];
    }
    var ids := CollectMissionTypeIds(db.missionTypes);
    if |ids| == 0 {
      return EmptyTypesError;
    }
    var k :| 0 <= k < |ids|;
    var typeId := ids[k];
    var objective := DrawObjective(typeId);
    db.missions := db.missions[newId := NewMissionRow(newId, uid, typeId, clock, objective)];
    var typeName := TypeName(db.missionTypes, typeId);
    resp := MissionResponse(MissionView(newId, uid, typeId, typeName, Assigned, 0, clock.returned, clock.expiryBase + OneDay, false));
  }

  /**
   * GET /api/missions/user/{userId}: the `WHERE user_id = ?` query and the
   * loop over its rows, in the table's unspecified order. The list holds
   * exactly the missions of that user, each once, with every column.
   */
  method ListUserMissions(db: Database, userId: string) returns (resp: Response)
    requires db.Valid()
    ensures resp.ListResponse?
    ensures forall i :: 0 <= i < |resp.missions| ==>
              && resp.missions[i].id in db.missions
              && db.missions[resp.missions[i].id] == resp.missions[i]
              && resp.missions[i].userId == userId
    ensures forall id :: id in db.missions && db.missions[id].userId == userId ==> db.missions[id] in resp.missions
    ensures forall i, j :: 0 <= i < j < |resp.missions| ==> resp.missions[i].id != resp.missions[j].id
  {
    var rows: seq<MissionRow> := [];
    var rest := db.missions.Keys;
    while rest != {}
      invariant rest <= db.missions.Keys
      invariant forall i :: 0 <= i < |rows| ==>
                  && rows[i].id in db.missions && rows[i].id !in rest
                  && db.missions[rows[i].id] == rows[i] && rows[i].userId == userId
      invariant forall id :: id in db.missions && id !in rest && db.missions[id].userId == userId ==>
                  db.missions[id] in rows
      invariant forall i, j :: 0 <= i < j < |rows| ==> rows[i].id != rows[j].id
      decreases rest
    {
      var id :| id in rest;
      var row := db.missions[id];
      if row.userId == userId {
        rows := rows + [row];
      }
      rest := rest - {id};
    }
    resp := ListResponse(rows);
  }

  /** The route's clamp: progress + delta, lowered to the objective when above it. */
  function ClampProgress(progress: int, delta: int, maxProgress: int): (r: int)
    ensures r <= maxProgress
    ensures progress + delta <= maxProgress ==> r == progress + delta
    ensures progress + delta > maxProgress ==> r == maxProgress
  {
    var newProgress := progress + delta;
    if newProgress > maxProgress then maxProgress else newProgress
  }

  /**
   * POST /api/missions/{missionId}/progress. A missing delta gives 400 and
   * an unknown mission 404, neither writing. Otherwise only the progress
   * column is written: the status never changes, and there is no ownership
   * or terminal-state check.
   */
  method Progress(db: Database, missionId: string, delta: Option<int>) returns (resp: Response)
    requires db.Valid()
    modifies db
    ensures db.Valid() && db.users == old(db.users)
    ensures delta.None? ==>
              resp == ErrorResponse(400, "Progress delta is required") && db.missions == old(db.missions)
    ensures delta.Some? && missionId !in old(db.missions) ==>
              resp == ErrorResponse(404, "Mission not found") && db.missions == old(db.missions)
    ensures delta.Some? && missionId in old(db.missions) ==>
              var row := old(db.missions)[missionId];
              var newRow := row.(progress := ClampProgress(row.progress, delta.value, row.objectiveValue));
              && db.missions == old(db.missions)[missionId := newRow]
              && resp == MissionResponse(ViewOf(newRow, TypeName(db.missionTypes, row.missionTypeId)))
  {
    if delta.None? {
      return ErrorResponse(400, "Progress delta is required");
    }
    if missionId !in db.missions {
      return ErrorResponse(404, "Mission not found");
    }
    var row := db.missions[missionId];
    var newProgress := ClampProgress(row.progress, delta.value, row.objectiveValue);
    db.missions := db.missions[missionId := row.(progress := newProgress)];
    // The re-read finds the row just written: its second 404 branch cannot be taken here.
    var updated := db.missions[missionId];
    resp := MissionResponse(ViewOf(updated, TypeName(db.missionTypes, updated.missionTypeId)));
  }

  /** `UPDATE missions SET status = 'completed', rewards_claimed = 1 WHERE id = ?`. */
  function ForceComplete(missions: map<string, MissionRow>, missionId: string): (r: map<string, MissionRow>)
    ensures r.Keys == missions.Keys
    ensures missionId in missions ==> r[missionId].status == Completed && r[missionId].rewardsClaimed
    ensures forall id :: id in missions ==>
              var old_, new_ := missions[id], r[id];
              && new_.progress == old_.progress && new_.objectiveValue == old_.objectiveValue
              && new_.id == old_.id && new_.userId == old_.userId && new_.missionTypeId == old_.missionTypeId
              && new_.createdAt == old_.createdAt && new_.expiresAt == old_.expiresAt
    ensures forall id :: id in missions && id != missionId ==> r[id] == missions[id]
  {
    if missionId in missions then missions[missionId := missions[missionId].(status := Completed, rewardsClaimed := true)]
    else missions
  }

  /**
   * POST /api/missions/{missionId}/complete: the unconditional update, then
   * the re-read, which gives 404 for an unknown id (the update having
   * touched nothing).
   */
  method Complete(db: Database, missionId: string) returns (resp: Response)
    requires db.Valid()
    modifies db
    ensures db.Valid() && db.users == old(db.users)
    ensures db.missions == ForceComplete(old(db.missions), missionId)
    ensures missionId !in old(db.missions) ==> resp == ErrorResponse(404, "Mission not found")
    ensures missionId in old(db.missions) ==>
              resp == MissionResponse(ViewOf(db.missions[missionId], TypeName(db.missionTypes, db.missions[missionId].missionTypeId)))
  {
    db.missions := ForceComplete(db.missions, missionId);
    if missionId !in db.missions {
      return ErrorResponse(404, "Mission not found");
    }
    var row := db.missions[missionId];
    resp := MissionResponse(ViewOf(row, TypeName(db.missionTypes, row.missionTypeId)));
  }

  /** Completing twice leaves the table as completing once. */
  lemma ForceCompleteIdempotent(missions: map<string, MissionRow>, missionId: string)
    ensures ForceComplete(ForceComplete(missions, missionId), missionId) == ForceComplete(missions, missionId)
  {
  }

  function StateOf(row: MissionRow): MissionState {
    MissionState(row.status, row.progress, row.rewardsClaimed)
  }

  /**
   * The route marks rewards claimed where the entity's markRewardsClaimed
   * refuses: on a mission not completed, and on one already claimed.
   */
  lemma ForceCompleteBypassesClaimGuard(missions: map<string, MissionRow>, missionId: string)
    requires missionId in missions && !CanClaimRewards(StateOf(missions[missionId]))
    ensures ClaimOutcome(StateOf(missions[missionId])).Failure?
    ensures ForceComplete(missions, missionId)[missionId].rewardsClaimed
    ensures ForceComplete(missions, missionId)[missionId].status == Completed
  {
  }

  /** Any freshly generated mission completed this way is left below its objective. */
  lemma ForceCompleteLeavesProgress(missions: map<string, MissionRow>, id: string, userId: string,
                                    typeId: string, clock: Clock, objective: int)
    requires id in missions && missions[id] == NewMissionRow(id, userId, typeId, clock, objective)
    requires objective >= 1
    ensures var after := ForceComplete(missions, id)[id];
            after.status == Completed && after.rewardsClaimed && after.progress == 0 < after.objectiveValue
  {
  }

  /** The route's new progress always equals the progress service's. */
  lemma ClampAgreesWithService(progress: int, delta: int, status: Status, objective: int)
    ensures ClampProgress(progress, delta, objective) == ProgressService.Transition(progress, delta, status, objective).progress
  {
  }

  /**
   * The status is where the route and the service part: at the objective the
   * service completes an assigned mission, the route leaves it assigned.
   */
  lemma ProgressRouteNeverCompletes(row: MissionRow, delta: int)
    requires row.status == Assigned && row.progress + delta >= row.objectiveValue
    ensures var routeRow := row.(progress := ClampProgress(row.progress, delta, row.objectiveValue));
            && routeRow.progress == row.objectiveValue && routeRow.status == Assigned
            && ProgressService.Transition(row.progress, delta, row.status, row.objectiveValue)
               == ProgressService.Step(row.objectiveValue, Completed)
  {
  }
}
