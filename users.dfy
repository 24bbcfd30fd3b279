/**
 * The user service (src/users/users.service.ts): find the user of a Telegram
 * account, or register it with the free attempts every new user starts with.
 *
 * The users table is keyed by its numeric id and has a unique `telegramId`
 * column; `UserTable` holds it with the table's autoincrement counter.
 * `FindOrCreateStep` says what the operation does to a table, and
 * `UsersService.FindOrCreateUser` does it in place.
 */
module Users {
  import opened Wrappers

  /** The free analyses a new user gets. */
  const InitialFreeAttempts: int := 5

  /** A row of the users table; the optional profile fields are null when absent. */
  datatype User = User(
    id: int, telegramId: string,
    username: Option<string>, firstName: Option<string>, lastName: Option<string>,
    freeAttempts: int)

  datatype UserTable = UserTable(users: map<int, User>, nextId: int)

  /** Ids are positive, below the counter and stored in their rows, and no two
      rows share a `telegramId` (the column's unique index). */
  ghost predicate WellFormed(t: UserTable) {
    && t.nextId >= 1
    && (forall id :: id in t.users ==> 1 <= id < t.nextId && t.users[id].id == id)
    && (forall a, b :: a in t.users && b in t.users && t.users[a].telegramId == t.users[b].telegramId ==> a == b)
  }

  /** Some row has this `telegramId`. */
  ghost predicate Registered(t: UserTable, telegramId: string) {
    exists id :: id in t.users && t.users[id].telegramId == telegramId
  }

  /** The unique-index lookup: the id among lo..hi-1 whose row has this `telegramId`. */
  function FindByTelegramId(users: map<int, User>, telegramId: string, lo: int, hi: int): (r: Option<int>)
    decreases hi - lo
    ensures r.Some? ==> lo <= r.value < hi && r.value in users && users[r.value].telegramId == telegramId
    ensures r.None? ==> forall id :: lo <= id < hi && id in users ==> users[id].telegramId != telegramId
  {
    if lo >= hi then None
    else if lo in users && users[lo].telegramId == telegramId then Some(lo)
    else FindByTelegramId(users, telegramId, lo + 1, hi)
  }

  /** `findUnique({ where: { telegramId } })`: the row of the account, if any. */
  function FindUnique(t: UserTable, telegramId: string): (r: Option<User>)
    requires WellFormed(t)
    ensures r.Some? <==> Registered(t, telegramId)
    ensures r.Some? ==> r.value.telegramId == telegramId && r.value.id in t.users && t.users[r.value.id] == r.value
  {
    var id := FindByTelegramId(t.users, telegramId, 1, t.nextId);
    if id.Some? then Some(t.users[id.value]) else None
  }

  /** The user and the table findOrCreateUser leaves. */
  datatype Found = Found(user: User, after: UserTable)

  /** findOrCreateUser: a registered account gets its row back and the table
      is untouched; otherwise exactly one row is added, holding the given
      profile and the initial free attempts. */
  function FindOrCreateStep(t: UserTable, telegramId: string, username: Option<string>,
                            firstName: Option<string>, lastName: Option<string>): (r: Found)
    requires WellFormed(t)
    ensures WellFormed(r.after)
    ensures r.user.telegramId == telegramId
    ensures r.user.id in r.after.users && r.after.users[r.user.id] == r.user
    ensures Registered(t, telegramId) ==> r.after == t
    ensures !Registered(t, telegramId) ==>
      && t.nextId !in t.users
      && r.user == User(t.nextId, telegramId, username, firstName, lastName, InitialFreeAttempts)
      && r.after == UserTable(t.users[t.nextId := r.user], t.nextId + 1)
  {
    var found := FindUnique(t, telegramId);
    if found.Some? then Found(found.value, t)
    else
      var user := User(t.nextId, telegramId, username, firstName, lastName, InitialFreeAttempts);
      Found(user, UserTable(t.users[t.nextId := user], t.nextId + 1))
  }

  /** Asking again for the same account, whatever profile comes with it,
      returns the same user and leaves the table as the first call left it. */
  lemma {:induction false} FindOrCreateIdempotent(
    t: UserTable, telegramId: string,
    username: Option<string>, firstName: Option<string>, lastName: Option<string>,
    username2: Option<string>, firstName2: Option<string>, lastName2: Option<string>)
    requires WellFormed(t)
    ensures var first := FindOrCreateStep(t, telegramId, username, firstName, lastName);
      FindOrCreateStep(first.after, telegramId, username2, firstName2, lastName2) == first
  {
    var first := FindOrCreateStep(t, telegramId, username, firstName, lastName);
    var again := FindUnique(first.after, telegramId);
    assert Registered(first.after, telegramId);
    assert again.value.id == first.user.id;
  }

  /** A newly registered user starts with the free attempts. */
  lemma NewUserHasFreeAttempts(t: UserTable, telegramId: string, username: Option<string>,
                               firstName: Option<string>, lastName: Option<string>)
    requires WellFormed(t) && !Registered(t, telegramId)
    ensures FindOrCreateStep(t, telegramId, username, firstName, lastName).user.freeAttempts == InitialFreeAttempts
    ensures |FindOrCreateStep(t, telegramId, username, firstName, lastName).after.users| == |t.users| + 1
  {
  }

  class UsersService {
    var users: map<int, User>
    var nextId: int

    function State(): UserTable
      reads this
    {
      UserTable(users, nextId)
    }

    ghost predicate Valid()
      reads this
    {
      WellFormed(State())
    }

    constructor (db: UserTable)
      requires WellFormed(db)
      ensures Valid() && State() == db
    {
      users := db.users;
      nextId := db.nextId;
    }

    method FindOrCreateUser(telegramId: string, username: Option<string>,
                            firstName: Option<string>, lastName: Option<string>)
      returns (user: User)
      requires Valid()
      modifies this
      ensures Valid()
      ensures Found(user, State()) == FindOrCreateStep(old(State()), telegramId, username, firstName, lastName)
    {
      var existing := FindUnique(State(), telegramId);
      if existing.Some? {
        user := existing.value;
      } else {
        user := User(nextId, telegramId, username, firstName, lastName, InitialFreeAttempts);
        users := users[nextId := user];
        nextId := nextId + 1;
      }
    }
  }
}
