/**
 * The role gate the framework applies before an action runs: `[Authorize]`
 * on the passengers controller (any authenticated caller) and
 * `[Authorize(Roles = ...)]` on each action.
 */
module Authorization {
  import opened Wrappers
  import Jwt

  const AdminRole: string := "Admin"
  const UserRole: string := "User"

  /** The identity the token validator attaches to a request: the Name claim and the Role claims. */
  datatype Principal = Principal(name: Option<string>, roles: set<string>)

  /** The principal a validated token yields. */
  function PrincipalOf(token: Jwt.Token): Principal
  {
    Principal(Some(token.name), {token.role})
  }

  datatype Action =
    | ListPassengers
    | GetPassenger
    | CreatePassenger
    | UpdatePassenger
    | DeletePassenger
    | Reauthenticate
  {
    predicate IsRead()
    {
      ListPassengers? || GetPassenger?
    }
  }

  /** The static policy: reads for "Admin,User", everything else for "Admin". */
  function AllowedRoles(a: Action): set<string>
  {
    if a.IsRead() then {AdminRole, UserRole} else {AdminRole}
  }

  /** Challenge is 401 (no valid token), Forbid is 403 (no role that the action admits). */
  datatype Decision = Allow | Challenge | Forbid

  /**
   * The gate: an unauthenticated request is challenged; an authenticated one
   * is allowed when it holds a role the action admits, and forbidden otherwise.
   */
  function Decide(caller: Option<Principal>, a: Action): (d: Decision)
    ensures d == Challenge <==> caller.None?
    ensures d == Allow <==>
      caller.Some? && (AdminRole in caller.value.roles || (a.IsRead() && UserRole in caller.value.roles))
  {
    if caller.None? then Challenge
    else if caller.value.roles * AllowedRoles(a) == {} then
      assert AdminRole !in caller.value.roles * AllowedRoles(a);
      assert a.IsRead() ==> UserRole !in caller.value.roles * AllowedRoles(a);
      Forbid
    else Allow
  }
}
