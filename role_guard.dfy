/** RoleGuard: admits a request when the user holds one of the roles listed in the configuration. */
module RoleGuard {
  import opened Wrappers
  import opened Errors
  import opened Config
  import opened Strings

  const RequiredRolesKey := "REQUIRED_DISCORD_ROLES"
  const MissingRoleDataMessage := "User not authenticated or missing role data"
  const InsufficientPermissionsMessage := "Insufficient permissions"

  /** The authenticated user attached to the request; `roles` may be missing. */
  datatype RequestUser = RequestUser(roles: Option<seq<string>>)

  /** The comma-separated setting split into roles, or no roles when it is unset. */
  function RequiredRoles(settings: Settings): (roles: seq<string>)
    ensures RequiredRolesKey !in settings <==> |roles| == 0
    ensures RequiredRolesKey in settings ==> Join(roles, ',') == settings[RequiredRolesKey]
    ensures forall i :: 0 <= i < |roles| ==> ',' !in roles[i]
  {
    match Get(settings, RequiredRolesKey)
    case Some(value) => Split(value, ',')
    case None => []
  }

  /** `canActivate`: `Success(true)` to admit the request, or the UnauthorizedException it throws. */
  function CanActivate(settings: Settings, user: Option<RequestUser>): (r: Result<bool, Exception>)
    ensures r.Success? ==> r.value
    ensures RequiredRolesKey !in settings ==> r == Success(true)
    ensures RequiredRolesKey in settings && (user.None? || user.value.roles.None?)
            ==> r == Failure(UnauthorizedException(MissingRoleDataMessage))
    ensures RequiredRolesKey in settings && user.Some? && user.value.roles.Some?
            ==> (r.Success? <==> exists role :: role in user.value.roles.value && role in RequiredRoles(settings))
    ensures r.Failure? && !(user.None? || user.value.roles.None?)
            ==> r.error == UnauthorizedException(InsufficientPermissionsMessage)
  {
    var requiredRoles := RequiredRoles(settings);
    if |requiredRoles| == 0 then Success(true)
    else if user.None? || user.value.roles.None? then Failure(UnauthorizedException(MissingRoleDataMessage))
    else
      var hasRequiredRole := exists role :: role in user.value.roles.value && role in requiredRoles;
      if !hasRequiredRole then Failure(UnauthorizedException(InsufficientPermissionsMessage))
      else Success(true)
  }

  /** A user holding any one of the listed roles is admitted. */
  lemma ListedRoleIsAdmitted(settings: Settings, listed: seq<string>, roles: seq<string>, k: int)
    requires |listed| >= 1 && forall i :: 0 <= i < |listed| ==> ',' !in listed[i]
    requires RequiredRolesKey in settings && settings[RequiredRolesKey] == Join(listed, ',')
    requires 0 <= k < |listed| && listed[k] in roles
    ensures CanActivate(settings, Some(RequestUser(Some(roles)))) == Success(true)
  {
    SplitJoin(listed, ',');
    assert listed[k] in RequiredRoles(settings);
  }

  /** An empty setting lists the one empty role: it does not open the guard. */
  lemma EmptySettingListsEmptyRole(settings: Settings, roles: seq<string>)
    requires RequiredRolesKey in settings && settings[RequiredRolesKey] == ""
    requires "" !in roles
    ensures RequiredRoles(settings) == [""]
    ensures CanActivate(settings, Some(RequestUser(Some(roles)))) == Failure(UnauthorizedException(InsufficientPermissionsMessage))
  {
  }
}
