/** `UserRoleMapper.mapUserRole`: the role string is lower-cased and then compared
    with upper-case literals, so no input reaches the ADMIN branch. */
module UserRoleMapper {
  import opened Text
  import opened Domain

  /** The mapping as the source writes it. */
  function MapUserRoleAsWritten(role: string): UserRole {
    var lowered := Lower(role);
    if lowered == "ADMIN" then Admin
    else if lowered == "REGISTERED" then Registered
    else Registered
  }

  /** The ADMIN branch is dead: every input, "ADMIN" included, maps to REGISTERED. */
  lemma AsWrittenAlwaysRegistered(role: string)
    ensures MapUserRoleAsWritten(role) == Registered
  {
  }

  /** The mapping as evidently intended: a case-insensitive match on the role name. */
  function MapUserRole(role: string): (r: UserRole)
    ensures r == Admin <==> Lower(role) == "admin"
  {
    if Lower(role) == "admin" then Admin else Registered
  }

  /** The intended mapping reads every role's own name back as that role, and also
      accepts the lower-case spelling. */
  lemma MapUserRoleRecognisesNames(r: UserRole)
    ensures MapUserRole(RoleName(r)) == r
    ensures MapUserRole(Lower(RoleName(r))) == r
  {
    var n := RoleName(r);
    if r == Admin {
      assert Lower(n) == "admin";
      assert Lower(Lower(n)) == "admin";
    } else {
      assert Lower(n) != "admin" by { assert Lower(n)[0] == 'r'; }
      assert Lower(Lower(n)) != "admin" by { assert Lower(Lower(n))[0] == 'r'; }
    }
  }
}
