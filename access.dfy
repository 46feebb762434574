/** Getting into a team: the owner publishes a join code or invites a user by
    e-mail; a user joins with the code or accepts the invitation. Every
    operation runs under the corrected Prisma-error decorator. */
module TeamAccessService {
  import opened Common
  import opened Schema
  import opened PrismaErrors
  import opened TeamService

  /** Some team other than `teamId` already uses the code. */
  predicate CodeTaken(teams: map<Id, Team>, teamId: Id, code: string) {
    exists t :: t in teams && t != teamId && teams[t].joinCode == Some(code)
  }

  /** Stores the (randomly generated) code as the team's join code. */
  method GenerateJoinCode(db: Db, teamId: Id, userId: Id, code: string) returns (r: Outcome<string>)
    requires db.Valid()
    modifies db`teams
    ensures db.Valid()
    ensures old(!IsOwner(db.members, userId, teamId)) ==> r == Fail(Forbidden)
    ensures old(IsOwner(db.members, userId, teamId) && CodeTaken(db.teams, teamId, code)) ==> r == Fail(Conflict)
    ensures r.Ok? <==> old(IsOwner(db.members, userId, teamId) && !CodeTaken(db.teams, teamId, code))
    ensures r.Err? ==> db.teams == old(db.teams)
    ensures r.Ok? ==> r.value == code && db.teams == old(db.teams)[teamId := old(db.teams[teamId]).(joinCode := Some(code))]
  {
    var raw: Outcome<string>;
    if !IsOwner(db.members, userId, teamId) {
      raw := Fail(Forbidden);
    } else if exists t :: t in db.teams && t != teamId && db.teams[t].joinCode == Some(code) {
      // the join code column is unique
      raw := Err(Prisma(KnownRequest("P2002")));
    } else {
      // an owner's membership implies the team exists
      db.teams := db.teams[teamId := db.teams[teamId].(joinCode := Some(code))];
      raw := Ok(code);
    }
    r := DecoratedPassingHttp(raw);
  }

  /** The user registered with the e-mail, if any. */
  predicate HasEmail(users: map<Id, User>, email: string) {
    exists u :: u in users && users[u].email == email
  }

  method InviteUserByEmail(db: Db, teamId: Id, email: string) returns (r: Outcome<()>)
    requires db.Valid()
    modifies db`invitations
    ensures db.Valid()
    ensures old(!HasEmail(db.users, email)) ==> r == Fail(NotFound)
    ensures r.Err? ==> db.invitations == old(db.invitations)
    ensures r.Ok? ==> exists u :: u in old(db.users) && old(db.users[u].email) == email &&
                       MemberKey(u, teamId) !in old(db.members) && MemberKey(u, teamId) !in old(db.invitations) &&
                       teamId in old(db.teams) && db.invitations == old(db.invitations) + {MemberKey(u, teamId)}
    ensures forall u :: u in old(db.users) && old(db.users[u].email) == email ==>
              && (MemberKey(u, teamId) in old(db.members) ==> r == Fail(Conflict))
              && (MemberKey(u, teamId) !in old(db.members) && MemberKey(u, teamId) in old(db.invitations) ==> r == Fail(Conflict))
              && (MemberKey(u, teamId) !in old(db.members) && MemberKey(u, teamId) !in old(db.invitations) && teamId !in old(db.teams) ==> r == Fail(BadRequest))
              && (MemberKey(u, teamId) !in old(db.members) && MemberKey(u, teamId) !in old(db.invitations) && teamId in old(db.teams) ==> r == Ok(()))
    ensures r.Ok? <==> old(exists u: Id ::
                             u in db.users && db.users[u].email == email && MemberKey(u, teamId) !in db.members &&
                             MemberKey(u, teamId) !in db.invitations && teamId in db.teams)
  {
    var raw: Outcome<()>;
    if !HasEmail(db.users, email) {
      raw := Fail(NotFound);
    } else {
      var u :| u in db.users && db.users[u].email == email;
      var key := MemberKey(u, teamId);
      if key in db.members {
        raw := Fail(Conflict);
      } else if key in db.invitations {
        // one invitation per user and team
        raw := Err(Prisma(KnownRequest("P2002")));
      } else if teamId !in db.teams {
        raw := Err(MissingReference);
      } else {
        db.invitations := db.invitations + {key};
        raw := Ok(());
      }
    }
    r := DecoratedPassingHttp(raw);
  }

  /** The team whose join code is `code`, if any. */
  predicate CodeOf(teams: map<Id, Team>, teamId: Id, code: string) {
    teamId in teams && teams[teamId].joinCode == Some(code)
  }

  method JoinTeamByCode(db: Db, userId: Id, code: string) returns (r: Outcome<Id>)
    requires db.Valid()
    modifies db`members
    ensures db.Valid()
    ensures old(forall t: Id :: !CodeOf(db.teams, t, code)) ==> r == Fail(NotFound)
    ensures r.Err? ==> db.members == old(db.members)
    ensures forall t: Id :: old(CodeOf(db.teams, t, code)) ==>
              && (MemberKey(userId, t) in old(db.members) ==> r == Fail(Forbidden))
              && (MemberKey(userId, t) !in old(db.members) && userId !in old(db.users) ==> r == Fail(BadRequest))
              && (MemberKey(userId, t) !in old(db.members) && userId in old(db.users) ==>
                    r == Ok(t) && db.members == old(db.members)[MemberKey(userId, t) := USER])
  {
    var raw: Outcome<Id>;
    if forall t | t in db.teams :: !CodeOf(db.teams, t, code) {
      raw := Fail(NotFound);
    } else {
      // join codes are unique, so this is the one team with the code
      var t :| t in db.teams && CodeOf(db.teams, t, code);
      var key := MemberKey(userId, t);
      if key in db.members {
        raw := Fail(Forbidden);
      } else if userId !in db.users {
        raw := Err(MissingReference);
      } else {
        db.members := db.members[key := USER];
        raw := Ok(t);
      }
    }
    r := DecoratedPassingHttp(raw);
  }

  method AcceptTeamInvitation(db: Db, userId: Id, teamId: Id) returns (r: Outcome<()>)
    requires db.Valid()
    modifies db`invitations, db`members
    ensures db.Valid()
    ensures old(MemberKey(userId, teamId) !in db.invitations) ==> r == Fail(NotFound)
    ensures old(MemberKey(userId, teamId) in db.invitations && MemberKey(userId, teamId) in db.members) ==> r == Fail(Conflict)
    ensures r.Ok? <==> old(MemberKey(userId, teamId) in db.invitations && MemberKey(userId, teamId) !in db.members &&
                           userId in db.users && teamId in db.teams)
    ensures r.Err? ==> db.invitations == old(db.invitations) && db.members == old(db.members)
    ensures r.Ok? ==> db.invitations == old(db.invitations) - {MemberKey(userId, teamId)}
    ensures r.Ok? ==> db.members == old(db.members)[MemberKey(userId, teamId) := USER]
  {
    var raw: Outcome<()>;
    var key := MemberKey(userId, teamId);
    if key !in db.invitations {
      raw := Fail(NotFound);
    } else if key in db.members {
      // the membership already exists: the insert fails and the transaction rolls back
      raw := Err(Prisma(KnownRequest("P2002")));
    } else if userId !in db.users || teamId !in db.teams {
      raw := Err(MissingReference);
    } else {
      db.invitations := db.invitations - {key};
      db.members := db.members[key := USER];
      raw := Ok(());
    }
    r := DecoratedPassingHttp(raw);
  }

  /** Joining by code and accepting an invitation add a USER membership and
      leave the team's owners as they were. */
  lemma NewMemberIsNotOwner(members: map<MemberKey, Role>, userId: Id, teamId: Id, t: Id)
    requires MemberKey(userId, teamId) !in members
    ensures Owners(members[MemberKey(userId, teamId) := USER], t) == Owners(members, t)
    ensures !IsOwner(members[MemberKey(userId, teamId) := USER], userId, teamId)
  {
    var after := members[MemberKey(userId, teamId) := USER];
    forall u
      ensures u in Owners(after, t) <==> u in Owners(members, t)
    {
      OwnersMeansOwner(after, t, u);
      OwnersMeansOwner(members, t, u);
    }
  }
}
