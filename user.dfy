/**
 * The User entity: readonly identity and dates, a level and an experience
 * that two mutators change in place, both validated by the constructor.
 */
module UserEntity {
  import opened Wrappers

  /**
   * The constructor's checks, in order: the level first, then the
   * experience. None when both pass.
   */
  function ValidationError(level: int, experience: int): (r: Option<string>)
    ensures r.None? <==> level >= 1 && experience >= 0
    ensures level < 1 ==> r == Some("Level must be at least 1")
    ensures level >= 1 && experience < 0 ==> r == Some("Experience cannot be negative")
  {
    if level < 1 then Some("Level must be at least 1")
    else if experience < 0 then Some("Experience cannot be negative")
    else None
  }

  class User {
    const id: string
    const username: string
    const email: string
    var level: int
    var experience: int
    const createdAt: int
    const lastLoginAt: Option<int>

    /** The invariant every constructed User has and both mutators keep. */
    ghost predicate Valid()
      reads this
    {
      level >= 1 && experience >= 0
    }

    /** The part that passes validation; Create is the throwing constructor. */
    constructor Init(id: string, username: string, email: string, level: int, experience: int,
                     createdAt: int, lastLoginAt: Option<int>)
      requires ValidationError(level, experience).None?
      ensures Valid()
      ensures this.id == id && this.username == username && this.email == email
      ensures this.level == level && this.experience == experience
      ensures this.createdAt == createdAt && this.lastLoginAt == lastLoginAt
    {
      this.id := id;
      this.username := username;
      this.email := email;
      this.level := level;
      this.experience := experience;
      this.createdAt := createdAt;
      this.lastLoginAt := lastLoginAt;
    }

    /**
     * `new User(...)`: level defaults to 1, experience to 0, lastLoginAt to
     * null; createdAt, which defaults to the clock, is a parameter. An
     * invalid level or experience throws, here a Failure with its message.
     */
    static method Create(id: string, username: string, email: string, createdAt: int,
                         level: int := 1, experience: int := 0, lastLoginAt: Option<int> := None)
      returns (r: Result<User, string>)
      ensures ValidationError(level, experience).Some? ==> r == Failure(ValidationError(level, experience).value)
      ensures ValidationError(level, experience).None? ==>
                && r.Success? && fresh(r.value) && r.value.Valid()
                && r.value.id == id && r.value.username == username && r.value.email == email
                && r.value.level == level && r.value.experience == experience
                && r.value.createdAt == createdAt && r.value.lastLoginAt == lastLoginAt
    {
      var error := ValidationError(level, experience);
      if error.Some? {
        return Failure(error.value);
      }
      var u := new User.Init(id, username, email, level, experience, createdAt, lastLoginAt);
      r := Success(u);
    }

    /** addExperience(amount): a negative amount throws and changes nothing; otherwise adds exactly amount. */
    method AddExperience(amount: int) returns (error: Option<string>)
      requires Valid()
      modifies this
      ensures Valid() && level == old(level)
      ensures amount < 0 ==> error == Some("Experience amount to add cannot be negative") && experience == old(experience)
      ensures amount >= 0 ==> error == None && experience == old(experience) + amount
    {
      if amount < 0 {
        return Some("Experience amount to add cannot be negative");
      }
      experience := experience + amount;
      error := None;
    }

    /** levelUp(): the level goes up by exactly one, the experience stays. */
    method LevelUp()
      requires Valid()
      modifies this
      ensures Valid() && level == old(level) + 1 && experience == old(experience)
    {
      level := level + 1;
    }
  }

  /** The defaults a new user gets: level 1 and experience 0 pass validation. */
  lemma DefaultsAreValid()
    ensures ValidationError(1, 0).None?
  {
  }
}
