/** User accounts and roles inside a team. This service has no Prisma-error
    decorator: a database error leaves it untranslated. */
module UsersService {
  import opened Common
  import opened Schema
  import opened TeamService

  /** The fields updateUser applies; an absent one is left alone. */
  datatype UserPatch = UserPatch(name: Option<string>, email: Option<string>, phone: Option<string>)

  function PatchedUser(u: User, p: UserPatch): (v: User)
    ensures v.password == u.password
    ensures v.name == (if p.name.Some? then p.name.value else u.name)
    ensures v.email == (if p.email.Some? then p.email.value else u.email)
    ensures v.phone == (if p.phone.Some? then p.phone.value else u.phone)
  {
    User(if p.name.Some? then p.name.value else u.name,
         if p.email.Some? then p.email.value else u.email,
         if p.phone.Some? then p.phone.value else u.phone,
         u.password)
  }

  /** Another user already has the e-mail. */
  predicate EmailTaken(users: map<Id, User>, userId: Id, email: string) {
    exists v :: v in users && v != userId && users[v].email == email
  }

  method UpdateUser(db: Db, userId: Id, patch: UserPatch) returns (r: Outcome<User>)
    requires db.Valid()
    modifies db`users
    ensures db.Valid()
    ensures old(userId !in db.users) ==> r == Fail(NotFound)
    ensures old(userId in db.users) && patch.email.Some? && old(EmailTaken(db.users, userId, patch.email.value)) ==>
              r == Err(Prisma(KnownRequest("P2002")))
    ensures r.Ok? <==> old(userId in db.users) && (patch.email.Some? ==> old(!EmailTaken(db.users, userId, patch.email.value)))
    ensures r.Err? ==> db.users == old(db.users)
    ensures r.Ok? ==> db.users == old(db.users)[userId := PatchedUser(old(db.users[userId]), patch)] && r.value == db.users[userId]
  {
    if userId !in db.users {
      return Fail(NotFound);
    }
    if patch.email.Some? && exists v :: v in db.users && v != userId && db.users[v].email == patch.email.value {
      // the e-mail column is unique
      return Err(Prisma(KnownRequest("P2002")));
    }
    db.users := db.users[userId := PatchedUser(db.users[userId], patch)];
    r := Ok(db.users[userId]);
  }

  /** The password hashing library: check a password against a stored hash,
      and hash a new one. */
  datatype PasswordHasher = PasswordHasher(matches: (string, string) -> bool, hash: string -> string)

  method ChangePassword(db: Db, userId: Id, currentPassword: string, newPassword: string, hasher: PasswordHasher)
    returns (r: Outcome<User>)
    requires db.Valid()
    modifies db`users
    ensures db.Valid()
    ensures old(userId !in db.users) ==> r == Fail(NotFound)
    ensures old(userId in db.users) && !hasher.matches(currentPassword, old(db.users[userId].password)) ==> r == Fail(Unauthorized)
    ensures r.Ok? <==> old(userId in db.users) && hasher.matches(currentPassword, old(db.users[userId].password))
    ensures r.Err? ==> db.users == old(db.users)
    ensures r.Ok? ==> db.users == old(db.users)[userId := old(db.users[userId]).(password := hasher.hash(newPassword))]
    ensures r.Ok? ==> r.value == db.users[userId]
  {
    if userId !in db.users {
      return Fail(NotFound);
    }
    var user := db.users[userId];
    if !hasher.matches(currentPassword, user.password) {
      return Fail(Unauthorized);
    }
    db.users := db.users[userId := user.(password := hasher.hash(newPassword))];
    r := Ok(db.users[userId]);
  }

  /** A membership with its user and team. */
  datatype MemberDetail = MemberDetail(role: Role, user: User, team: Team)

  /** The member's role with their user and team rows, or NotFound for a
      user who is not in the team. */
  function TeamUserDetail(members: map<MemberKey, Role>, users: map<Id, User>, teams: map<Id, Team>,
                          teamId: Id, userId: Id): (r: Outcome<MemberDetail>)
    requires MembersReferToRows(members, users, teams)
    ensures r.Ok? <==> MemberKey(userId, teamId) in members
    ensures r.Err? ==> r == Fail(NotFound)
    ensures r.Ok? ==> r.value.role == members[MemberKey(userId, teamId)]
    ensures r.Ok? ==> r.value.user == users[userId] && r.value.team == teams[teamId]
  {
    var key := MemberKey(userId, teamId);
    if key !in members then Fail(NotFound)
    else Ok(MemberDetail(members[key], users[userId], teams[teamId]))
  }

  method UpdateUserRole(db: Db, teamId: Id, userId: Id, newRole: Role, actorId: Id) returns (r: Outcome<Role>)
    requires db.Valid()
    modifies db`members
    ensures db.Valid()
    ensures old(!IsOwner(db.members, actorId, teamId)) ==> r == Fail(Forbidden)
    ensures old(IsOwner(db.members, actorId, teamId) && MemberKey(userId, teamId) !in db.members) ==>
              r == Err(RecordNotFound)
    ensures r.Ok? <==> old(IsOwner(db.members, actorId, teamId) && MemberKey(userId, teamId) in db.members)
    ensures r.Err? ==> db.members == old(db.members)
    ensures r.Ok? ==> r.value == newRole && db.members == old(db.members)[MemberKey(userId, teamId) := newRole]
  {
    if !IsOwner(db.members, actorId, teamId) {
      return Fail(Forbidden);
    }
    var key := MemberKey(userId, teamId);
    if key !in db.members {
      return Err(RecordNotFound);
    }
    db.members := db.members[key := newRole];
    r := Ok(newRole);
  }

  /** Role changes are not checked against ownership: an owner can demote
      themselves and leave the team without any owner, and can promote a
      second owner. */
  lemma RoleChangeOwners(members: map<MemberKey, Role>, teamId: Id, userId: Id, newRole: Role)
    requires MemberKey(userId, teamId) in members
    ensures newRole == OWNER ==> Owners(members[MemberKey(userId, teamId) := newRole], teamId) == Owners(members, teamId) + {userId}
    ensures newRole != OWNER ==> Owners(members[MemberKey(userId, teamId) := newRole], teamId) == Owners(members, teamId) - {userId}
  {
    var after := members[MemberKey(userId, teamId) := newRole];
    forall u
      ensures u in Owners(after, teamId) <==>
              (if newRole == OWNER then u in Owners(members, teamId) + {userId} else u in Owners(members, teamId) - {userId})
    {
      OwnersMeansOwner(after, teamId, u);
      OwnersMeansOwner(members, teamId, u);
    }
  }
}
