/** `UserMappers` and `UserSettingsMappers`: the user row keeps the role as its enum
    name and adds the password hash; the settings row keeps only the real-time
    detection flag. */
module UserMappers {
  import opened Wrappers
  import opened Domain

  datatype UserEntity = UserEntity(id: int, username: string, passwordHash: string, displayName: string,
                                   role: string, createdAt: int)

  datatype UserSettingsEntity = UserSettingsEntity(userId: int, realTimeDetectionEnabled: bool)

  /** `UserEntity.toDomain()`: `UserRole.valueOf(role)` throws on an unknown name,
      which is the failure here. */
  function UserToDomain(e: UserEntity): (r: Result<UserAccount>)
    ensures r.Success? <==> exists t :: RoleName(t) == e.role
    ensures r.Success? ==>
              r.value.id == e.id && r.value.username == e.username && r.value.displayName == e.displayName
              && RoleName(r.value.role) == e.role && r.value.createdAt == e.createdAt
  {
    var role := ParseRole(e.role);
    if role.Failure? then Failure(role.error)
    else Success(UserAccount(e.id, e.username, e.displayName, role.value, e.createdAt))
  }

  /** `UserAccount.toEntity(passwordHash)`. */
  function UserToEntity(u: UserAccount, passwordHash: string): (e: UserEntity)
    ensures e.passwordHash == passwordHash && e.role == RoleName(u.role)
    ensures e.id == u.id && e.username == u.username && e.createdAt == u.createdAt
  {
    UserEntity(u.id, u.username, passwordHash, u.displayName, RoleName(u.role), u.createdAt)
  }

  lemma RoleNameInjective(a: UserRole, b: UserRole)
    requires RoleName(a) == RoleName(b)
    ensures a == b
  {
  }

  /** Every account survives a write and a read. */
  lemma UserRoundTrip(u: UserAccount, passwordHash: string)
    ensures UserToDomain(UserToEntity(u, passwordHash)) == Success(u)
  {
    var e := UserToEntity(u, passwordHash);
    var r := UserToDomain(e);
    assert RoleName(u.role) == e.role;
    RoleNameInjective(r.value.role, u.role);
  }

  /** A row that reads back writes back as itself. */
  lemma UserRowRoundTrip(e: UserEntity)
    requires UserToDomain(e).Success?
    ensures UserToEntity(UserToDomain(e).value, e.passwordHash) == e
  {
  }

  /** `UserSettingsEntity.toDomain()`: the flag, and every other option at its default. */
  function SettingsToDomain(e: UserSettingsEntity): (s: UserSettings)
    ensures s.realTimeDetectionEnabled == e.realTimeDetectionEnabled
    ensures s.(realTimeDetectionEnabled := DEFAULT_SETTINGS.realTimeDetectionEnabled) == DEFAULT_SETTINGS
  {
    DEFAULT_SETTINGS.(realTimeDetectionEnabled := e.realTimeDetectionEnabled)
  }

  /** `UserSettings.toEntity(userId)`. */
  function SettingsToEntity(s: UserSettings, userId: int): (e: UserSettingsEntity)
    ensures e.userId == userId && e.realTimeDetectionEnabled == s.realTimeDetectionEnabled
  {
    UserSettingsEntity(userId, s.realTimeDetectionEnabled)
  }

  /** A settings row survives a read and a write. */
  lemma SettingsRowRoundTrip(e: UserSettingsEntity)
    ensures SettingsToEntity(SettingsToDomain(e), e.userId) == e
  {
  }

  /** Only the flag is stored: settings that differ from the defaults elsewhere come
      back as the defaults with that flag. */
  lemma SettingsKeepOnlyFlag(s: UserSettings, userId: int)
    ensures SettingsToDomain(SettingsToEntity(s, userId)) == s <==>
              s == DEFAULT_SETTINGS.(realTimeDetectionEnabled := s.realTimeDetectionEnabled)
  {
  }
}
