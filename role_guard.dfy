/** The role guard in front of the admin and buyer routes: a decision on
    the role a route demands and the authenticated user of the request. */
module RoleGuard {
  import opened Common

  datatype Role = Admin | Buyer

  /** The access-token payload attached to an authenticated request. */
  datatype JwtPayload = JwtPayload(id: string, role: Role)

  /** `required` is the role metadata of the handler or controller (None
      when the route declares none); `user` is the request's user, None
      when the request is not authenticated. */
  function CanActivate(required: Option<Role>, user: Option<JwtPayload>): (granted: bool)
    ensures required.None? ==> granted
    ensures required.Some? && user.None? ==> !granted
    ensures required.Some? && user.Some? ==> (granted <==> user.value.role == required.value)
  {
    if required.None? then true
    else if user.Some? then required.value == user.value.role
    else false
  }

  /** The decision looks at nothing of the user but the role. */
  lemma DecisionDependsOnlyOnRole(required: Option<Role>, u: JwtPayload, v: JwtPayload)
    requires u.role == v.role
    ensures CanActivate(required, Some(u)) == CanActivate(required, Some(v))
  {
  }

  /** An admin route admits exactly the authenticated admins, and a buyer
      route exactly the authenticated buyers: neither role passes the
      other's gate. */
  lemma GatesAreDisjoint(user: Option<JwtPayload>)
    ensures CanActivate(Some(Admin), user) <==> (user.Some? && user.value.role == Admin)
    ensures !(CanActivate(Some(Admin), user) && CanActivate(Some(Buyer), user))
  {
  }
}
