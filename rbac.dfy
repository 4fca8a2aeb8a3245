/** The role check used to gate dashboard features. */
module Rbac {
  import opened Wrappers

  /** What a feature asks for: one role, or any role of a list. */
  datatype Required = One(role: string) | AnyOf(roles: seq<string>)

  /** `hasRole`: a missing or empty role has nothing; a list asks for membership, a single role for equality. */
  function HasRole(userRole: Option<string>, required: Required): (r: bool)
    ensures r ==> userRole.Some? && userRole.value != ""
  {
    if userRole.None? || userRole.value == "" then false
    else
      match required
      case AnyOf(roles) => userRole.value in roles
      case One(role) => userRole.value == role
  }

  lemma NoRoleHasNothing(required: Required)
    ensures !HasRole(None, required)
  {
  }

  /** A list requirement holds exactly for a (non-empty) role that the list contains. */
  lemma AnyOfIffMember(role: string, roles: seq<string>)
    requires role != ""
    ensures HasRole(Some(role), AnyOf(roles)) <==> role in roles
  {
  }

  lemma OneIffEqual(role: string, required: string)
    requires role != ""
    ensures HasRole(Some(role), One(required)) <==> role == required
  {
  }

  lemma EmptyListNeverSatisfied(userRole: Option<string>)
    ensures !HasRole(userRole, AnyOf([]))
  {
  }

  /** Accepting more roles never withdraws access. */
  lemma MoreRolesKeepAccess(userRole: Option<string>, roles: seq<string>, more: seq<string>)
    ensures HasRole(userRole, AnyOf(roles)) ==> HasRole(userRole, AnyOf(roles + more))
    ensures HasRole(userRole, AnyOf(roles)) ==> HasRole(userRole, AnyOf(more + roles))
  {
  }
}
