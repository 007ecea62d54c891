/**
 * The relational tables the services and routes read and write: `users`,
 * `missions` and `mission_types`, keyed by their id columns. Timestamps are
 * clock readings in seconds.
 */
module Store {
  import opened MissionEntity

  /** One day, the lifetime of a freshly generated mission (`+1 day`). */
  const OneDay := 86400

  /** A `users` row as the core writes it: id, username, level, experience, created_at. */
  datatype UserRow = UserRow(id: string, username: string, level: int, experience: int, createdAt: int)

  /** A `missions` row. */
  datatype MissionRow = MissionRow(
    id: string,
    userId: string,
    missionTypeId: string,
    status: Status,
    progress: int,
    createdAt: int,
    expiresAt: int,
    rewardsClaimed: bool,
    objectiveValue: int)

  /** The row inserted for a user seen for the first time: username = id, level 1, experience 0. */
  function NewUserRow(userId: string, now: int): UserRow {
    UserRow(userId, userId, 1, 0, now)
  }

  /**
   * The four clock readings a generation request makes, in program order:
   * the new user's created_at, the reading `+1 day` is added to for
   * expires_at, the new mission's created_at, and the createdAt handed back.
   * Nothing ties them together: each `new DateTimeImmutable()` is its own call.
   */
  datatype Clock = Clock(userCreated: int, expiryBase: int, missionCreated: int, returned: int)

  /** The row inserted for a freshly generated mission. */
  function NewMissionRow(id: string, userId: string, missionTypeId: string, clock: Clock, objective: int): MissionRow {
    MissionRow(id, userId, missionTypeId, Assigned, 0, clock.missionCreated, clock.expiryBase + OneDay, false, objective)
  }

  /**
   * The users table after "insert the user unless a row with that id exists":
   * exactly one new row when absent, no change when present.
   */
  function WithUser(users: map<string, UserRow>, userId: string, now: int): (r: map<string, UserRow>)
    ensures userId in r && r.Keys == users.Keys + {userId}
    ensures userId !in users ==> r[userId] == UserRow(userId, userId, 1, 0, now)
    ensures forall id :: id in users ==> r[id] == users[id]
  {
    if userId in users then users else users[userId := NewUserRow(userId, now)]
  }

  /** The Mission object built from a stored row (`new Mission(...)` from `$updatedRow`). */
  predicate Mirrors(m: Mission, row: MissionRow)
    reads m
  {
    && m.id == row.id && m.userId == row.userId && m.missionTypeId == row.missionTypeId
    && m.status == row.status && m.progress == row.progress
    && m.createdAt == row.createdAt && m.expiresAt == row.expiresAt
    && m.rewardsClaimed == row.rewardsClaimed && m.objectiveValue == row.objectiveValue
  }

  method MissionFromRow(row: MissionRow) returns (m: Mission)
    ensures fresh(m) && Mirrors(m, row)
  {
    m := new Mission(row.id, row.userId, row.missionTypeId, row.status, row.progress,
                     row.createdAt, row.expiresAt, row.rewardsClaimed, row.objectiveValue);
  }

  /** The database connection's view of the tables. */
  class Database {
    var users: map<string, UserRow>
    var missions: map<string, MissionRow>
    /** `mission_types`: id to name; the core never writes it. */
    const missionTypes: map<string, string>

    /** Every row is stored under its own id. */
    ghost predicate Valid()
      reads this
    {
      && (forall id :: id in users ==> users[id].id == id)
      && (forall id :: id in missions ==> missions[id].id == id)
    }

    constructor (users: map<string, UserRow>, missions: map<string, MissionRow>, missionTypes: map<string, string>)
      requires forall id :: id in users ==> users[id].id == id
      requires forall id :: id in missions ==> missions[id].id == id
      ensures this.users == users && this.missions == missions && this.missionTypes == missionTypes
      ensures Valid()
    {
      this.users := users;
      this.missions := missions;
      this.missionTypes := missionTypes;
    }
  }
}
