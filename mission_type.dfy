/**
 * The MissionType value object: a catalog template whose fields are all
 * readonly, so a MissionType is a value no operation changes.
 */
module MissionTypeEntity {
  import opened Wrappers
  import opened Php
  import opened RewardEntity

  datatype MissionType = MissionType(
    id: string,
    name: string,
    description: string,
    objective: string,
    reward: Reward,
    requirements: map<string, int>)

  /**
   * `new MissionType(...)`: `empty($id)` throws, which refuses "" and also
   * "0"; requirements defaults to an empty array. The getters are the
   * fields, so each returns its constructor argument.
   */
  function NewMissionType(id: string, name: string, description: string, objective: string,
                          reward: Reward, requirements: map<string, int> := map[]): (r: Result<MissionType, string>)
    ensures r.Success? <==> !IsEmptyString(id)
    ensures r.Failure? ==> r.error == "MissionType ID cannot be empty"
    ensures r.Success? ==>
              && r.value.id == id && r.value.name == name && r.value.description == description
              && r.value.objective == objective && r.value.reward == reward
              && r.value.requirements == requirements
  {
    if IsEmptyString(id) then Failure("MissionType ID cannot be empty")
    else Success(MissionType(id, name, description, objective, reward, requirements))
  }

  /** Without requirements the type has none; the ids "" and "0" are both refused. */
  lemma NewMissionTypeDefaults(id: string, name: string, description: string, objective: string, reward: Reward)
    ensures !IsEmptyString(id) ==> NewMissionType(id, name, description, objective, reward).value.requirements == map[]
    ensures NewMissionType("", name, description, objective, reward).Failure?
    ensures NewMissionType("0", name, description, objective, reward).Failure?
  {
  }
}
