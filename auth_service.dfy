/**
 * User registration over a user store keyed by username. The store's
 * `create` supplies the record's id and timestamps; the password hash is a
 * parameter standing for bcrypt.
 */
module AuthService {
  import opened Wrappers
  import opened AppErrors
  import opened HttpErrors

  /** The cost factor passed to the hash. */
  const SaltRounds := 12
  const UsernameTaken := "Ce pseudo est déjà utilisé"

  /** A stored user; `password` holds the hash. */
  datatype User = User(id: string, username: string, password: string, createdAt: string, updatedAt: string)

  /** What registration returns: never the password. */
  datatype UserPublic = UserPublic(id: string, username: string, createdAt: string)

  /** The registration body without `confirmPassword`. */
  datatype RegisterInput = RegisterInput(username: string, password: string)

  /** Registration returns the public user or throws an `AppError`. */
  datatype RegisterResult = Registered(user: UserPublic) | Rejected(error: AppError)

  /** `bcrypt.hash(password, rounds)` */
  type Hasher = (string, int) -> string

  /** The store is keyed by username: each record sits under its own username. */
  predicate KeyedByUsername(users: map<string, User>)
  {
    forall k :: k in users ==> users[k].username == k
  }

  /** The public projection of a record: id, username and creation time. */
  function ToPublic(u: User): (p: UserPublic)
    ensures p.id == u.id && p.username == u.username && p.createdAt == u.createdAt
  {
    UserPublic(u.id, u.username, u.createdAt)
  }

  /** The record `create` stores for a fresh registration, with the store's id and time. */
  function NewUser(input: RegisterInput, hash: Hasher, id: string, dbTime: string): (u: User)
  {
    User(id, input.username, hash(input.password, SaltRounds), dbTime, dbTime)
  }

  /** The store and the result after `registerUser` on a store holding `users`. */
  function Register(users: map<string, User>, input: RegisterInput, hash: Hasher, id: string, dbTime: string): (outcome: (map<string, User>, RegisterResult))
  {
    if input.username in users then (users, Rejected(HttpErrors.Conflict(UsernameTaken)))
    else
      var u := NewUser(input, hash, id, dbTime);
      (users[input.username := u], Registered(ToPublic(u)))
  }

  /** A taken username: 409 CONFLICT and the store is left as it was. */
  lemma RegisterConflict(users: map<string, User>, input: RegisterInput, hash: Hasher, id: string, dbTime: string)
    requires input.username in users
    ensures var (after, r) := Register(users, input, hash, id, dbTime);
      && after == users
      && r.Rejected? && r.error.code == ErrorCode.Conflict && r.error.statusCode == 409
      && r.error.message == UsernameTaken
  {
  }

  /**
   * A fresh username: exactly one record is added, under that username,
   * holding the hash of the password, and the result is that record's
   * public projection.
   */
  lemma RegisterFresh(users: map<string, User>, input: RegisterInput, hash: Hasher, id: string, dbTime: string)
    requires input.username !in users
    ensures var (after, r) := Register(users, input, hash, id, dbTime);
      && after.Keys == users.Keys + {input.username}
      && |after| == |users| + 1
      && after[input.username].username == input.username
      && after[input.username].password == hash(input.password, SaltRounds)
      && r == Registered(ToPublic(after[input.username]))
      && r.user.id == id && r.user.username == input.username && r.user.createdAt == dbTime
  {
  }

  /** Every other user is untouched, whatever the outcome. */
  lemma RegisterLeavesOthers(users: map<string, User>, input: RegisterInput, hash: Hasher, id: string, dbTime: string, other: string)
    requires other != input.username
    ensures var after := Register(users, input, hash, id, dbTime).0;
      (other in after <==> other in users) && (other in users ==> after[other] == users[other])
  {
  }

  /** Registration keeps the store keyed by username. */
  lemma RegisterKeepsKeying(users: map<string, User>, input: RegisterInput, hash: Hasher, id: string, dbTime: string)
    requires KeyedByUsername(users)
    ensures KeyedByUsername(Register(users, input, hash, id, dbTime).0)
  {
  }

  /** The user store (the `user` table), with a count of `create` calls. */
  class UserStore {
    var users: map<string, User>
    ghost var creates: nat

    ghost predicate Valid()
      reads this
    {
      KeyedByUsername(users)
    }

    constructor ()
      ensures Valid() && users == map[] && creates == 0
    {
      users := map[];
      creates := 0;
    }

    /** `findUnique({ where: { username } })` */
    method FindUnique(username: string) returns (found: Option<User>)
      requires Valid()
      ensures found.Some? <==> username in users
      ensures found.Some? ==> found.value == users[username] && found.value.username == username
    {
      found := if username in users then Some(users[username]) else None;
    }

    /**
     * `create({ data: { username, password } })`: the store supplies the id
     * and both timestamps; a duplicate username violates the unique key
     * and nothing is written.
     */
    method Create(username: string, password: string, id: string, dbTime: string) returns (created: Option<User>)
      requires Valid()
      modifies this
      ensures Valid() && creates == old(creates) + 1
      ensures old(username in users) ==> created.None? && users == old(users)
      ensures old(username !in users) ==>
        created == Some(User(id, username, password, dbTime, dbTime)) && users == old(users)[username := created.value]
    {
      creates := creates + 1;
      if username in users {
        created := None;
      } else {
        created := Some(User(id, username, password, dbTime, dbTime));
        users := users[username := created.value];
      }
    }

    /** `registerUser`: look the username up, fail on a duplicate, else hash and create. */
    method RegisterUser(input: RegisterInput, hash: Hasher, id: string, dbTime: string) returns (r: RegisterResult)
      requires Valid()
      modifies this
      ensures Valid()
      ensures (users, r) == Register(old(users), input, hash, id, dbTime)
      // A taken username: CONFLICT, nothing written, `create` never called.
      ensures old(input.username in users) ==>
        r.Rejected? && r.error.statusCode == 409 && users == old(users) && creates == old(creates)
      // A fresh username: `create` called once, with the hashed password.
      ensures old(input.username !in users) ==>
        && creates == old(creates) + 1
        && r.Registered? && users[input.username].password == hash(input.password, SaltRounds)
    {
      var existing := FindUnique(input.username);
      if existing.Some? {
        r := Rejected(HttpErrors.Conflict(UsernameTaken));
        return;
      }
      var passwordHash := hash(input.password, SaltRounds);
      var user := Create(input.username, passwordHash, id, dbTime);
      r := Registered(UserPublic(user.value.id, user.value.username, user.value.createdAt));
    }
  }
}
