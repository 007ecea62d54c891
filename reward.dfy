/**
 * The Reward value object: a type and a non-negative amount, both readonly.
 */
module RewardEntity {
  import opened Wrappers

  datatype Reward = Reward(kind: string, amount: int)

  /** `new Reward(type, amount)`: a negative amount throws; zero is accepted. */
  function NewReward(kind: string, amount: int): (r: Result<Reward, string>)
    ensures r.Success? <==> amount >= 0
    ensures r.Success? ==> r.value.kind == kind && r.value.amount == amount
    ensures r.Failure? ==> r.error == "Reward amount cannot be negative"
  {
    if amount < 0 then Failure("Reward amount cannot be negative") else Success(Reward(kind, amount))
  }

  /** getType(): with the amount, it rebuilds the very Reward it came from. */
  function GetType(r: Reward): (t: string)
    ensures r.amount >= 0 ==> NewReward(t, r.amount) == Success(r)
  {
    r.kind
  }

  /**
   * getAmount() as written: it returns the undefined local `$amount`, which
   * is null, and null is not an int, so every call ends in a TypeError.
   */
  function GetAmountAsWritten(r: Reward): (a: Result<int, string>)
    ensures a.Failure?
  {
    Failure("Reward::getAmount(): Return value must be of type int, null returned")
  }

  /** getAmount() as evidently intended: the stored amount, from which with the type the Reward is rebuilt. */
  function GetAmount(r: Reward): (a: int)
    ensures a >= 0 ==> NewReward(r.kind, a) == Success(r)
  {
    r.amount
  }

  /** Construction and the getters agree: a built Reward gives back its type and its amount. */
  lemma NewRewardGetters(kind: string, amount: int)
    requires amount >= 0
    ensures NewReward(kind, amount).Success?
    ensures GetType(NewReward(kind, amount).value) == kind
    ensures GetAmount(NewReward(kind, amount).value) == amount >= 0
  {
  }

  /** The test suite's Reward('gold', 50): getAmount as written cannot return 50. */
  lemma GetAmountAsWrittenLosesAmount()
    ensures NewReward("gold", 50).Success?
    ensures GetAmountAsWritten(NewReward("gold", 50).value) != Success(50)
    ensures GetAmount(NewReward("gold", 50).value) == 50
  {
  }
}
