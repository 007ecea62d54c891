/**
 * The CompleteMission use case, as its tests describe it: look the mission
 * up, check ownership, completion and claimability in that order, and only
 * then mark the rewards claimed and save. Test-derived.
 */
module CompleteMission {
  import opened Wrappers
  import opened MissionEntity

  /**
   * The checks after the mission is found, in the tested order; None when
   * all pass.
   */
  function CompleteRefusal(owner: string, st: MissionState, userId: string): (r: Option<string>)
    ensures r.None? <==> owner == userId && CanClaimRewards(st)
    ensures owner != userId ==> r == Some("Mission does not belong to user")
    ensures owner == userId && !IsCompleted(st) ==> r == Some("Mission is not completed yet")
    ensures owner == userId && IsCompleted(st) && st.rewardsClaimed ==> r == Some("Cannot claim rewards for this mission")
  {
    if owner != userId then Some("Mission does not belong to user")
    else if !IsCompleted(st) then Some("Mission is not completed yet")
    else if !CanClaimRewards(st) then Some("Cannot claim rewards for this mission")
    else None
  }

  /** When every check passes, markRewardsClaimed cannot refuse. */
  lemma PassedChecksClaim(owner: string, st: MissionState, userId: string)
    requires CompleteRefusal(owner, st, userId).None?
    ensures ClaimOutcome(st) == Success(st.(rewardsClaimed := true))
  {
  }

  /**
   * execute(userId, missionId) over a repository of missions. `saved` says
   * whether the repository's update was called; it is, with the claimed
   * mission, exactly when every check passes.
   */
  method Execute(missions: map<string, Mission>, userId: string, missionId: string)
    returns (updated: Option<Mission>, error: Option<string>, saved: bool)
    modifies if missionId in missions then {missions[missionId]} else {}
    ensures missionId !in missions ==> updated == None && error == Some("Mission not found") && !saved
    ensures missionId in missions ==>
              var m := missions[missionId];
              var refusal := CompleteRefusal(m.userId, old(m.State()), userId);
              if refusal.Some? then
                updated == None && error == refusal && !saved && m.State() == old(m.State())
              else
                updated == Some(m) && error == None && saved
                && m.State() == old(m.State()).(rewardsClaimed := true)
  {
    if missionId !in missions {
      return None, Some("Mission not found"), false;
    }
    var m := missions[missionId];
    var refusal := CompleteRefusal(m.userId, m.State(), userId);
    if refusal.Some? {
      return None, refusal, false;
    }
    PassedChecksClaim(m.userId, m.State(), userId);
    var claimError := m.MarkRewardsClaimed();
    assert claimError == None;
    updated, error, saved := Some(m), None, true;
  }
}
