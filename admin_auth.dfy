/**
  The guard sequence the admin routes (src/app/api/admin/slots/init/route.ts
  and src/app/api/admin/stats/route.ts) run before touching any table: a
  signed-in user, a profile with a café, and an admin role.
 */
module AdminAuth {
  import opened Common
  import opened Types

  datatype Denial = Unauthorized | NoCafe | NotAdmin

  /** The HTTP status of a refusal. */
  function DenialStatus(d: Denial): (code: int)
    ensures code == 401 <==> d == Unauthorized
    ensures code == 403 <==> d != Unauthorized
  {
    match d
    case Unauthorized => 401
    case NoCafe => 403
    case NotAdmin => 403
  }

  /** `['admin', 'superadmin'].includes(role)`. */
  predicate IsAdminRole(role: string) {
    role == "admin" || role == "superadmin"
  }

  datatype Access = Denied(reason: Denial) | Granted(cafeId: string)

  /**
    The guards in their order: no user is 401; a missing profile or a falsy
    `cafe_id` is 403; a role other than admin or superadmin is 403. `profile`
    is the result of the profile lookup (None when there is no row).
   */
  function CheckAdmin(signedIn: bool, profile: Option<Profile>): (r: Access)
    ensures r.Granted? <==>
      signedIn && profile.Some? && Truthy(profile.value.cafeId) && IsAdminRole(profile.value.role)
    ensures r.Granted? ==> Some(r.cafeId) == profile.value.cafeId
    ensures r == Denied(Unauthorized) <==> !signedIn
    ensures r == Denied(NoCafe) <==> signedIn && !(profile.Some? && Truthy(profile.value.cafeId))
  {
    if !signedIn then Denied(Unauthorized)
    else if profile.None? || !Truthy(profile.value.cafeId) then Denied(NoCafe)
    else if !IsAdminRole(profile.value.role) then Denied(NotAdmin)
    else Granted(profile.value.cafeId.value)
  }
}
