/**
 * MissionProgressUpdateService::updateMissionProgress: load a mission, check
 * that it belongs to the caller, move its progress and status, write back
 * only those two columns and return the stored row as a Mission.
 */
module ProgressService {
  import opened Wrappers
  import opened MissionEntity
  import opened Store

  /** The two columns the service writes. */
  datatype Step = Step(progress: int, status: Status)

  /**
   * The new progress and status for a row: saturate at the objective and
   * complete, else start an assigned mission. There is no terminal-state
   * guard and no lower clamp.
   */
  function Transition(progress: int, delta: int, status: Status, objective: int): (r: Step)
    ensures r.progress <= objective
    ensures 0 <= progress && 0 <= delta && 0 <= objective ==> 0 <= r.progress
    ensures r.status == Completed <==> progress + delta >= objective || status == Completed
  {
    var newProgress := progress + delta;
    if newProgress >= objective then Step(objective, Completed)
    else if status == Assigned then Step(newProgress, InProgress)
    else Step(newProgress, status)
  }

  /** Reaching the objective stores exactly the objective and `completed`. */
  lemma TransitionSaturates(progress: int, delta: int, status: Status, objective: int)
    requires progress + delta >= objective
    ensures Transition(progress, delta, status, objective) == Step(objective, Completed)
  {
  }

  /** Below the objective an assigned mission becomes in_progress at progress + delta. */
  lemma TransitionStartsAssigned(progress: int, delta: int, objective: int)
    requires progress + delta < objective
    ensures Transition(progress, delta, Assigned, objective) == Step(progress + delta, InProgress)
  {
  }

  /** Below the objective any other status is kept, whatever it is. */
  lemma TransitionKeepsOtherStatus(progress: int, delta: int, status: Status, objective: int)
    requires progress + delta < objective && status != Assigned
    ensures Transition(progress, delta, status, objective) == Step(progress + delta, status)
  {
  }

  /** No terminal guard: a failed or expired mission that reaches its objective becomes completed. */
  lemma TransitionRevivesTerminal(progress: int, delta: int, status: Status, objective: int)
    requires status == Failed || status == Expired
    requires progress + delta >= objective
    ensures Transition(progress, delta, status, objective).status == Completed
  {
  }

  /** No lower clamp: a negative delta can take progress below zero. */
  lemma TransitionCanGoNegative()
    ensures Transition(0, -1, InProgress, 10) == Step(-1, InProgress)
  {
  }

  /**
   * On a mission that is not completed, failed or expired, the service's
   * transition agrees with the entity's updateProgress.
   */
  lemma TransitionAgreesWithEntity(st: MissionState, delta: int, objective: int)
    requires !Terminal(st.status)
    ensures var s := Transition(st.progress, delta, st.status, objective);
            UpdateProgressOutcome(st, delta, objective) == Success(MissionState(s.status, s.progress, st.rewardsClaimed))
  {
  }

  /**
   * updateMissionProgress(missionId, userId, delta): existence first, then
   * ownership, each refusal writing nothing; otherwise only progress and
   * status of that one row change, and the result mirrors the stored row.
   */
  method UpdateMissionProgress(db: Database, missionId: string, userId: string, delta: int)
    returns (result: Result<Mission, string>)
    requires db.Valid()
    modifies db
    ensures db.Valid() && db.users == old(db.users)
    ensures missionId !in old(db.missions) ==>
              result == Failure("Mission not found") && db.missions == old(db.missions)
    ensures missionId in old(db.missions) && old(db.missions)[missionId].userId != userId ==>
              result == Failure("Mission does not belong to user") && db.missions == old(db.missions)
    ensures missionId in old(db.missions) && old(db.missions)[missionId].userId == userId ==>
              var row := old(db.missions)[missionId];
              var s := Transition(row.progress, delta, row.status, row.objectiveValue);
              && db.missions == old(db.missions)[missionId := row.(progress := s.progress, status := s.status)]
              && result.Success? && fresh(result.value) && Mirrors(result.value, db.missions[missionId])
  {
    if missionId !in db.missions {
      return Failure("Mission not found");
    }
    var row := db.missions[missionId];
    if row.userId != userId {
      return Failure("Mission does not belong to user");
    }
    var s := Transition(row.progress, delta, row.status, row.objectiveValue);
    db.missions := db.missions[missionId := row.(progress := s.progress, status := s.status)];
    var updatedRow := db.missions[missionId];
    var m := MissionFromRow(updatedRow);
    result := Success(m);
  }
}
