/**
 * The Mission entity: its five status values, its mutable part
 * (status, progress, rewardsClaimed) and the operations the entity's tests
 * ask of it (updateProgress, markRewardsClaimed, canClaimRewards,
 * isCompleted, isExpired). The record itself has no methods; the
 * operations are test-derived.
 */
module MissionEntity {
  import opened Wrappers

  /** Mission::STATUS_ASSIGNED … Mission::STATUS_EXPIRED. */
  datatype Status = Assigned | InProgress | Completed | Failed | Expired

  /** The string stored for each status. */
  function StatusName(s: Status): string {
    match s
    case Assigned => "assigned"
    case InProgress => "in_progress"
    case Completed => "completed"
    case Failed => "failed"
    case Expired => "expired"
  }

  /** Reads a stored status string back; any other string is not a status. */
  function ParseStatus(name: string): (r: Option<Status>)
    ensures r.Some? ==> StatusName(r.value) == name
  {
    if name == "assigned" then Some(Assigned)
    else if name == "in_progress" then Some(InProgress)
    else if name == "completed" then Some(Completed)
    else if name == "failed" then Some(Failed)
    else if name == "expired" then Some(Expired)
    else None
  }

  /** Every status is stored under its own name and read back as itself. */
  lemma StatusNameRoundTrip(s: Status)
    ensures ParseStatus(StatusName(s)) == Some(s)
    ensures forall t: Status :: StatusName(t) == StatusName(s) ==> t == s
  {
    forall t: Status | StatusName(t) == StatusName(s)
      ensures t == s
    {
      assert ParseStatus(StatusName(t)) == Some(t);
    }
  }

  /** The part of a Mission that its operations may change. */
  datatype MissionState = MissionState(status: Status, progress: int, rewardsClaimed: bool)

  /** States in which updateProgress refuses to run. */
  predicate Terminal(s: Status) {
    s == Completed || s == Failed || s == Expired
  }

  /** isCompleted(): a completed mission is also one updateProgress refuses. */
  function IsCompleted(st: MissionState): (r: bool)
    ensures r ==> Terminal(st.status)
  {
    st.status == Completed
  }

  /** canClaimRewards(): only a completed mission whose rewards are still unclaimed. */
  function CanClaimRewards(st: MissionState): (r: bool)
    ensures r ==> IsCompleted(st)
    ensures IsCompleted(st) ==> (r <==> !st.rewardsClaimed)
  {
    st.status == Completed && !st.rewardsClaimed
  }

  /** isExpired at clock reading `now`. */
  predicate IsExpired(expiresAt: int, now: int) {
    now >= expiresAt
  }

  /** Once expired, a mission stays expired at every later clock reading. */
  lemma ExpiryIsPermanent(expiresAt: int, now: int, later: int)
    requires IsExpired(expiresAt, now) && now <= later
    ensures IsExpired(expiresAt, later)
  {
  }

  /** The entity invariant: progress within [0, objective], a claim only on a completed mission. */
  predicate Consistent(st: MissionState, objective: int) {
    0 <= st.progress <= objective && (st.rewardsClaimed ==> st.status == Completed)
  }

  function UpdateRefusal(s: Status): string {
    "Cannot update progress for a mission with status: " + StatusName(s)
  }

  const NotCompletedRefusal := "Cannot claim rewards for a mission that is not completed."
  const AlreadyClaimedRefusal := "Rewards for this mission have already been claimed."

  /**
   * updateProgress(delta, objective): refuses a terminal mission; otherwise
   * moves progress by delta, capped at the objective, completing the mission
   * when the objective is reached and starting an assigned one otherwise.
   */
  function UpdateProgressOutcome(st: MissionState, delta: int, objective: int): (r: Result<MissionState, string>)
    ensures r.Failure? <==> Terminal(st.status)
    ensures r.Success? ==> r.value.progress <= objective && r.value.rewardsClaimed == st.rewardsClaimed
  {
    if Terminal(st.status) then Failure(UpdateRefusal(st.status))
    else
      var capped := if st.progress + delta < objective then st.progress + delta else objective;
      if capped >= objective then Success(MissionState(Completed, objective, st.rewardsClaimed))
      else if st.status == Assigned then Success(MissionState(InProgress, capped, st.rewardsClaimed))
      else Success(MissionState(st.status, capped, st.rewardsClaimed))
  }

  /** markRewardsClaimed: refuses unless completed and not yet claimed. */
  function ClaimOutcome(st: MissionState): (r: Result<MissionState, string>)
    ensures r.Success? <==> CanClaimRewards(st)
    ensures r.Success? ==> r.value.rewardsClaimed && r.value.status == st.status && r.value.progress == st.progress
    ensures st.status != Completed ==> r == Failure(NotCompletedRefusal)
    ensures st.status == Completed && st.rewardsClaimed ==> r == Failure(AlreadyClaimedRefusal)
  {
    if st.status != Completed then Failure(NotCompletedRefusal)
    else if st.rewardsClaimed then Failure(AlreadyClaimedRefusal)
    else Success(MissionState(st.status, st.progress, true))
  }

  /** An update on a completed, failed or expired mission names the status in its refusal. */
  lemma UpdateRefusesTerminal(st: MissionState, delta: int, objective: int)
    requires Terminal(st.status)
    ensures UpdateProgressOutcome(st, delta, objective)
         == Failure("Cannot update progress for a mission with status: " + StatusName(st.status))
  {
  }

  /** An assigned mission that stays below its objective starts: progress old + delta, status in_progress. */
  lemma UpdateStartsAssigned(st: MissionState, delta: int, objective: int)
    requires st.status == Assigned && st.progress + delta < objective
    ensures UpdateProgressOutcome(st, delta, objective)
         == Success(MissionState(InProgress, st.progress + delta, st.rewardsClaimed))
  {
  }

  /** Reaching the objective sets progress to exactly the objective and completes the mission. */
  lemma UpdateCompletesAtObjective(st: MissionState, delta: int, objective: int)
    requires !Terminal(st.status) && st.progress + delta >= objective
    ensures UpdateProgressOutcome(st, delta, objective)
         == Success(MissionState(Completed, objective, st.rewardsClaimed))
  {
  }

  /** A non-negative update keeps the entity invariant. */
  lemma UpdateKeepsConsistent(st: MissionState, delta: int, objective: int)
    requires Consistent(st, objective) && delta >= 0
    requires UpdateProgressOutcome(st, delta, objective).Success?
    ensures Consistent(UpdateProgressOutcome(st, delta, objective).value, objective)
  {
  }

  /** Claiming keeps the entity invariant. */
  lemma ClaimKeepsConsistent(st: MissionState, objective: int)
    requires Consistent(st, objective) && ClaimOutcome(st).Success?
    ensures Consistent(ClaimOutcome(st).value, objective)
  {
  }

  /** A second claim always fails: claiming is not idempotent. */
  lemma ClaimNotIdempotent(st: MissionState)
    requires ClaimOutcome(st).Success?
    ensures ClaimOutcome(ClaimOutcome(st).value) == Failure(AlreadyClaimedRefusal)
  {
  }

  /** The entity test's sequence: assigned 0, +3 of 10, then +7 of 10. */
  lemma UpdateProgressTestScenario()
    ensures UpdateProgressOutcome(MissionState(Assigned, 0, false), 3, 10)
         == Success(MissionState(InProgress, 3, false))
    ensures UpdateProgressOutcome(MissionState(InProgress, 3, false), 7, 10)
         == Success(MissionState(Completed, 10, false))
  {
  }

  /** The isCompleted test: completed is completed, in_progress is not. */
  lemma IsCompletedTestScenario()
    ensures IsCompleted(MissionState(Completed, 0, false))
    ensures !IsCompleted(MissionState(InProgress, 0, false))
  {
  }

  /** The canClaimRewards test: only the completed, unclaimed mission may claim. */
  lemma CanClaimRewardsTestScenario()
    ensures CanClaimRewards(MissionState(Completed, 10, false))
    ensures !CanClaimRewards(MissionState(Completed, 10, true))
    ensures !CanClaimRewards(MissionState(InProgress, 5, false))
  {
  }

  /** The isExpired test: an hour in the past is expired, an hour in the future is not. */
  lemma IsExpiredTestScenario(now: int)
    ensures IsExpired(now - 3600, now)
    ensures !IsExpired(now + 3600, now)
  {
  }

  /**
   * A Mission object. The readonly constructor properties are `const`
   * fields, so no operation can change them; status, progress and
   * rewardsClaimed are the public mutable ones.
   */
  class Mission {
    const id: string
    const userId: string
    const missionTypeId: string
    var status: Status
    var progress: int
    const createdAt: int
    const expiresAt: int
    var rewardsClaimed: bool
    const objectiveValue: int

    constructor (id: string, userId: string, missionTypeId: string, status: Status, progress: int,
                 createdAt: int, expiresAt: int, rewardsClaimed: bool, objectiveValue: int)
      ensures this.id == id && this.userId == userId && this.missionTypeId == missionTypeId
      ensures this.status == status && this.progress == progress && this.rewardsClaimed == rewardsClaimed
      ensures this.createdAt == createdAt && this.expiresAt == expiresAt
      ensures this.objectiveValue == objectiveValue
    {
      this.id := id;
      this.userId := userId;
      this.missionTypeId := missionTypeId;
      this.status := status;
      this.progress := progress;
      this.createdAt := createdAt;
      this.expiresAt := expiresAt;
      this.rewardsClaimed := rewardsClaimed;
      this.objectiveValue := objectiveValue;
    }

    function State(): MissionState
      reads this
    {
      MissionState(status, progress, rewardsClaimed)
    }

    /**
     * updateProgress(delta, objective): on success the new state is the
     * outcome's; on refusal the error carries the message and nothing changes.
     */
    method UpdateProgress(delta: int, objective: int) returns (error: Option<string>)
      modifies this
      ensures var r := UpdateProgressOutcome(old(State()), delta, objective);
              if r.Success? then error == None && State() == r.value
              else error == Some(r.error) && State() == old(State())
    {
      if status == Completed || status == Failed || status == Expired {
        return Some(UpdateRefusal(status));
      }
      var newProgress := progress + delta;
      if newProgress > objective {
        newProgress := objective;
      }
      if newProgress >= objective {
        progress := objective;
        status := Completed;
      } else {
        if status == Assigned {
          status := InProgress;
        }
        progress := newProgress;
      }
      error := None;
    }

    /** markRewardsClaimed(): succeeds exactly when canClaimRewards() holds. */
    method MarkRewardsClaimed() returns (error: Option<string>)
      modifies this
      ensures var r := ClaimOutcome(old(State()));
              if r.Success? then error == None && State() == r.value
              else error == Some(r.error) && State() == old(State())
    {
      if status != Completed {
        return Some(NotCompletedRefusal);
      }
      if rewardsClaimed {
        return Some(AlreadyClaimedRefusal);
      }
      rewardsClaimed := true;
      error := None;
    }
  }
}
