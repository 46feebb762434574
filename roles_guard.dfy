/** The role guard of team-scoped endpoints: it finds the team of the request
    and lets the request through only when the user's role in that team is
    one the endpoint requires. */
module RolesGuard {
  import opened Common
  import opened Schema

  /** What the guard reads from a request: the authenticated user and the team
      id from the route parameters, the query string and the
      `x-current-team-id` header (`None` when absent or empty). */
  datatype Request = Request(
    user: Option<Id>, paramTeamId: Option<Id>, queryTeamId: Option<Id>, headerTeamId: Option<Id>)

  /** The team of the request: the route parameter, else the query, else the header. */
  function TeamOf(req: Request): (t: Option<Id>)
    ensures req.paramTeamId.Some? ==> t == req.paramTeamId
    ensures req.paramTeamId.None? && req.queryTeamId.Some? ==> t == req.queryTeamId
    ensures req.paramTeamId.None? && req.queryTeamId.None? ==> t == req.headerTeamId
  {
    if req.paramTeamId.Some? then req.paramTeamId
    else if req.queryTeamId.Some? then req.queryTeamId
    else req.headerTeamId
  }

  /** The decision. `requiredRoles` is `None` when the endpoint declares no
      roles. The guard either allows or throws Forbidden. */
  function CanActivate(requiredRoles: Option<seq<Role>>, req: Request, members: map<MemberKey, Role>): (r: Outcome<bool>)
    ensures r.Ok? ==> r.value
    ensures r.Err? ==> r == Fail(Forbidden)
    ensures requiredRoles.None? ==> r.Ok?
  {
    match requiredRoles
    case None => Ok(true)
    case Some(roles) =>
      if req.user.None? || TeamOf(req).None? then Fail(Forbidden)
      else
        var key := MemberKey(req.user.value, TeamOf(req).value);
        if key !in members then Fail(Forbidden)
        else if members[key] !in roles then Fail(Forbidden)
        else Ok(true)
  }

  /** On an endpoint that declares roles, a request passes exactly when its
      user is a member of its team with one of those roles. */
  lemma GuardAllowsExactly(roles: seq<Role>, req: Request, members: map<MemberKey, Role>)
    ensures CanActivate(Some(roles), req, members).Ok? <==>
              && req.user.Some? && TeamOf(req).Some?
              && MemberKey(req.user.value, TeamOf(req).value) in members
              && members[MemberKey(req.user.value, TeamOf(req).value)] in roles
  {
  }

  /** Requiring more roles never denies a request that fewer roles allowed. */
  lemma GuardMonotone(fewer: seq<Role>, more: seq<Role>, req: Request, members: map<MemberKey, Role>)
    requires forall r :: r in fewer ==> r in more
    ensures CanActivate(Some(fewer), req, members).Ok? ==> CanActivate(Some(more), req, members).Ok?
  {
  }

  /** An empty role list denies everyone, while no role list allows everyone. */
  lemma EmptyRoleListDeniesAll(req: Request, members: map<MemberKey, Role>)
    ensures CanActivate(Some([]), req, members) == Fail(Forbidden)
    ensures CanActivate(None, req, members) == Ok(true)
  {
  }

  /** A team id in the route parameters hides the query and the header: a
      member of the parameter's team passes even if the header names a team
      they are not in. */
  lemma ParamTeamWins(roles: seq<Role>, req: Request, members: map<MemberKey, Role>)
    requires req.user.Some? && req.paramTeamId.Some?
    ensures CanActivate(Some(roles), req, members) ==
            CanActivate(Some(roles), req.(queryTeamId := None, headerTeamId := None), members)
  {
  }
}
