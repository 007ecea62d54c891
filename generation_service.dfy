/**
 * MissionGenerationService::generateMissionForUser: insert the user on first
 * use, pick a mission type, draw an objective from the shared table and
 * insert the new mission.
 */
module GenerationService {
  import opened Wrappers
  import opened MissionEntity
  import opened Objectives
  import opened Store

  /**
   * generateMissionForUser(userId). `newId` is the value `uniqid()` returns,
   * assumed not to be a stored mission id; `clock` holds the four separate
   * clock readings the method makes. The type is any row of
   * `mission_types` (`ORDER BY RAND() LIMIT 1`) and the objective any value
   * of its range (`rand`).
   */
  method GenerateMissionForUser(db: Database, userId: string, newId: string, clock: Clock)
    returns (result: Result<Mission, string>)
    requires db.Valid() && newId !in db.missions
    modifies db
    ensures db.Valid()
    ensures db.users == WithUser(old(db.users), userId, clock.userCreated)
    ensures db.missionTypes == map[] ==>
              result == Failure("No suitable mission types found") && db.missions == old(db.missions)
    ensures db.missionTypes != map[] ==>
              && result.Success?
              && var m := result.value;
              && fresh(m)
              && m.id == newId && m.userId == userId && m.missionTypeId in db.missionTypes
              && m.status == Assigned && m.progress == 0 && !m.rewardsClaimed
              && ObjectiveRange(m.missionTypeId).lo <= m.objectiveValue <= ObjectiveRange(m.missionTypeId).hi
              && m.objectiveValue >= 1
              && m.createdAt == clock.returned && m.expiresAt == clock.expiryBase + OneDay
              && db.missions == old(db.missions)[newId := NewMissionRow(newId, userId, m.missionTypeId, clock, m.objectiveValue)]
              // the returned Mission and the inserted row agree on all but createdAt
              && Mirrors(m, db.missions[newId].(createdAt := clock.returned))
  {
    if userId !in db.users {
      db.users := db.users[userId := NewUserRow(userId, clock.userCreated)];
    }
    if db.missionTypes == map[] {
      return Failure("No suitable mission types found");
    }
    var typeId :| typeId in db.missionTypes;
    var objective := DrawObjective(typeId);
    var row := NewMissionRow(newId, userId, typeId, clock, objective);
    db.missions := db.missions[newId := row];
    var m := new Mission(newId, userId, typeId, Assigned, 0, clock.returned, clock.expiryBase + OneDay, false, objective);
    result := Success(m);
  }
}
