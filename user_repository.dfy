/** `UserRepository`: registration and login over the user table, which is kept
    here as a map from user name to row plus the next auto-generated row id.
    Every failure the source throws (`check` or `IllegalStateException`) is a
    `Failure` carrying the same message. */
module UserRepository {
  import opened Wrappers
  import opened Text
  import opened Domain
  import opened UserMappers

  const DEFAULT_ADMIN_USERNAME: string := "admin"
  const DEFAULT_ADMIN_PASSWORD: string := "admin"
  const DEFAULT_ADMIN_DISPLAY_NAME: string := "Administrator"
  const MIN_PASSWORD_LENGTH: nat := 4

  /** The first check `register` fails, in the order the source checks them. */
  function RegisterError(users: map<string, UserEntity>, username: string, password: string,
                         displayName: string): (err: Option<string>)
    ensures err.None? <==>
              !IsBlank(username) && |password| >= MIN_PASSWORD_LENGTH && !IsBlank(displayName)
              && username !in users
    ensures IsBlank(username) ==> err == Some("Username cannot be blank")
    ensures !IsBlank(username) && |password| < MIN_PASSWORD_LENGTH ==> err == Some("Password too short")
  {
    if IsBlank(username) then Some("Username cannot be blank")
    else if |password| < MIN_PASSWORD_LENGTH then Some("Password too short")
    else if IsBlank(displayName) then Some("Display name required")
    else if username in users then Some("Username already exists")
    else None
  }

  /** `login`: the user's row when it exists and its stored hash is `hashed`. */
  function LoginOutcome(users: map<string, UserEntity>, username: string, hashed: string): (r: Result<UserAccount>)
    ensures r.Success? ==> username in users && users[username].passwordHash == hashed
    ensures username !in users ==> r == Failure("User not found")
    ensures username in users && users[username].passwordHash != hashed ==> r == Failure("Invalid credentials")
  {
    if username !in users then Failure("User not found")
    else if users[username].passwordHash != hashed then Failure("Invalid credentials")
    else UserToDomain(users[username])
  }

  /** Every row is filed under its own user name, holds a known role name and an
      id below the next one to be handed out. */
  ghost predicate TableValid(users: map<string, UserEntity>, nextId: int) {
    nextId >= 1
    && forall u :: u in users ==>
         users[u].username == u && 1 <= users[u].id < nextId && UserToDomain(users[u]).Success?
  }

  /** A user registered with a password logs in with that password and gets back
      the account registration returned. */
  lemma RegisterThenLogin(users: map<string, UserEntity>, hash: string -> string, u: UserAccount,
                          password: string)
    ensures var row := UserToEntity(u, hash(password));
            LoginOutcome(users[u.username := row], u.username, hash(password)) == Success(u)
  {
    UserRoundTrip(u, hash(password));
  }

  /** A password with a different hash is refused. */
  lemma WrongPasswordRejected(users: map<string, UserEntity>, username: string, hashed: string)
    requires username in users && users[username].passwordHash != hashed
    ensures LoginOutcome(users, username, hashed).Failure?
  {
  }

  class UserRepository {
    var users: map<string, UserEntity>
    var nextId: int
    /** `PasswordHasher.hash`; the SHA-256 digest is not modelled. */
    const hash: string -> string

    ghost predicate Valid()
      reads this
    {
      TableValid(users, nextId)
    }

    constructor(hash: string -> string)
      ensures Valid() && users == map[] && nextId == 1 && this.hash == hash
    {
      users := map[];
      nextId := 1;
      this.hash := hash;
    }

    /** `ensureDefaultAdmin`: returns the existing "admin" account, or inserts one
        with password "admin" and role ADMIN. */
    method EnsureDefaultAdmin(now: int) returns (account: UserAccount)
      requires Valid()
      modifies this
      ensures Valid()
      ensures DEFAULT_ADMIN_USERNAME in users
      ensures Success(account) == UserToDomain(users[DEFAULT_ADMIN_USERNAME])
      ensures DEFAULT_ADMIN_USERNAME in old(users) ==>
                users == old(users) && nextId == old(nextId)
                && Success(account) == UserToDomain(old(users)[DEFAULT_ADMIN_USERNAME])
      ensures DEFAULT_ADMIN_USERNAME !in old(users) ==>
                nextId == old(nextId) + 1
                && users == old(users)[DEFAULT_ADMIN_USERNAME :=
                     UserEntity(old(nextId), DEFAULT_ADMIN_USERNAME, hash(DEFAULT_ADMIN_PASSWORD),
                                DEFAULT_ADMIN_DISPLAY_NAME, RoleName(Admin), now)]
                && account.role == Admin && account.id == old(nextId)
    {
      if DEFAULT_ADMIN_USERNAME in users {
        account := UserToDomain(users[DEFAULT_ADMIN_USERNAME]).value;
        return;
      }
      var row := UserEntity(nextId, DEFAULT_ADMIN_USERNAME, hash(DEFAULT_ADMIN_PASSWORD),
                            DEFAULT_ADMIN_DISPLAY_NAME, RoleName(Admin), now);
      users := users[DEFAULT_ADMIN_USERNAME := row];
      nextId := nextId + 1;
      account := UserToDomain(row).value;
    }

    /** `register`: validates, refuses a taken user name, then inserts the row with
        the hashed password under a fresh id. */
    method Register(username: string, password: string, displayName: string, role: UserRole, now: int)
      returns (r: Result<UserAccount>)
      requires Valid()
      modifies this
      ensures Valid()
      ensures var err := RegisterError(old(users), username, password, displayName);
              err.Some? ==> r == Failure(err.value) && users == old(users) && nextId == old(nextId)
      ensures RegisterError(old(users), username, password, displayName).None? ==>
                r == Success(UserAccount(old(nextId), username, displayName, role, now))
                && users == old(users)[username := UserToEntity(r.value, hash(password))]
                && nextId == old(nextId) + 1
    {
      var err := RegisterError(users, username, password, displayName);
      if err.Some? {
        return Failure(err.value);
      }
      var account := UserAccount(nextId, username, displayName, role, now);
      var row := UserToEntity(account, hash(password));
      UserRoundTrip(account, hash(password));
      users := users[username := row];
      nextId := nextId + 1;
      r := Success(account);
    }

    /** `login`: looks the user up and compares the stored hash with the hash of
        the password given. */
    method Login(username: string, password: string) returns (r: Result<UserAccount>)
      requires Valid()
      ensures r == LoginOutcome(users, username, hash(password))
      ensures r.Success? ==> r.value.username == username
    {
      if username !in users {
        return Failure("User not found");
      }
      var row := users[username];
      if row.passwordHash != hash(password) {
        return Failure("Invalid credentials");
      }
      r := UserToDomain(row);
    }
  }

  /** Seeding the administrator twice leaves the table as the first call left it
      and returns the same account. */
  method EnsureDefaultAdminTwice(repo: UserRepository, now: int, later: int)
    returns (first: UserAccount, second: UserAccount)
    requires repo.Valid()
    modifies repo
    ensures first == second
    ensures DEFAULT_ADMIN_USERNAME in repo.users
  {
    first := repo.EnsureDefaultAdmin(now);
    ghost var seeded := repo.users;
    second := repo.EnsureDefaultAdmin(later);
    assert repo.users == seeded;
  }
}
