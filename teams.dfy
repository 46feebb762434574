/** Teams and their memberships: creating a team with its owner, editing and
    deleting it, removing members, handing over ownership and leaving. Every
    operation runs under the Prisma-error decorator, in its corrected form
    (`PrismaErrors.DecoratedPassingHttp`). */
module TeamService {
  import opened Common
  import opened Schema
  import opened PrismaErrors

  /** The user holds the OWNER role in the team. */
  predicate IsOwner(members: map<MemberKey, Role>, userId: Id, teamId: Id) {
    MemberKey(userId, teamId) in members && members[MemberKey(userId, teamId)] == OWNER
  }

  /** The owners of a team. */
  function Owners(members: map<MemberKey, Role>, teamId: Id): set<Id> {
    set k | k in members && k.teamId == teamId && members[k] == OWNER :: k.userId
  }

  /** A user is in `Owners` exactly when the membership says OWNER. */
  lemma OwnersMeansOwner(members: map<MemberKey, Role>, teamId: Id, userId: Id)
    ensures userId in Owners(members, teamId) <==> IsOwner(members, userId, teamId)
  {
    if IsOwner(members, userId, teamId) {
      assert MemberKey(userId, teamId) in members;
    }
  }

  /** The error the database raises when the row to update or delete is missing. */
  const RecordNotFound: Thrown := Prisma(KnownRequest("P2025"))

  /** The error the database raises when a row would refer to a missing one. */
  const MissingReference: Thrown := Prisma(KnownRequest("P2003"))

  lemma DecoratedDatabaseErrors<T>()
    ensures DecoratedPassingHttp<T>(Err(RecordNotFound)) == Fail(NotFound)
    ensures DecoratedPassingHttp<T>(Err(MissingReference)) == Fail(BadRequest)
    ensures DecoratedPassingHttp<T>(Err(Prisma(KnownRequest("P2002")))) == Fail(Conflict)
  {
  }

  // ---- create ----

  /** Creates the team and makes the creator its OWNER, in one transaction
      (the team's address is not part of this model). */
  method Create(db: Db, name: string, logo: Option<string>, userId: Id) returns (r: Outcome<Id>)
    requires db.Valid()
    modifies db`teams, db`members, db`nextId
    ensures db.Valid()
    ensures r.Ok? <==> old(userId in db.users)
    ensures r.Err? ==> r == Fail(BadRequest) && db.teams == old(db.teams) && db.members == old(db.members)
    ensures r.Ok? ==> r.value !in old(db.teams) && db.teams == old(db.teams)[r.value := Team(name, logo, None, None)]
    ensures r.Ok? ==> db.members == old(db.members)[MemberKey(userId, r.value) := OWNER]
    ensures r.Ok? ==> Owners(db.members, r.value) == {userId}
  {
    var raw: Outcome<Id>;
    if userId !in db.users {
      // the membership row refers to a missing user; the transaction rolls back
      raw := Err(MissingReference);
    } else {
      var id := db.NewId();
      db.teams := db.teams[id := Team(name, logo, None, None)];
      db.members := db.members[MemberKey(userId, id) := OWNER];
      OwnersMeansOwner(db.members, id, userId);
      raw := Ok(id);
    }
    r := DecoratedPassingHttp(raw);
  }

  // ---- update and delete ----

  /** The fields updateTeam accepts; an absent one is left alone. */
  datatype TeamPatch = TeamPatch(name: Option<string>, logo: Option<string>)

  function PatchedTeam(t: Team, p: TeamPatch): (u: Team)
    ensures u.joinCode == t.joinCode && u.fiscalData == t.fiscalData
    ensures u.name == (if p.name.Some? then p.name.value else t.name)
    ensures u.logo == (if p.logo.Some? then p.logo else t.logo)
  {
    t.(name := if p.name.Some? then p.name.value else t.name,
       logo := if p.logo.Some? then p.logo else t.logo)
  }

  method UpdateTeam(db: Db, teamId: Id, userId: Id, patch: TeamPatch) returns (r: Outcome<Team>)
    requires db.Valid()
    modifies db`teams
    ensures db.Valid()
    ensures old(teamId !in db.teams) ==> r == Fail(NotFound)
    ensures old(teamId in db.teams && !IsOwner(db.members, userId, teamId)) ==> r == Fail(Forbidden)
    ensures r.Ok? <==> old(teamId in db.teams && IsOwner(db.members, userId, teamId))
    ensures r.Err? ==> db.teams == old(db.teams)
    ensures r.Ok? ==> db.teams == old(db.teams)[teamId := PatchedTeam(old(db.teams[teamId]), patch)]
    ensures r.Ok? ==> r.value == db.teams[teamId]
  {
    var raw: Outcome<Team>;
    if teamId !in db.teams {
      raw := Fail(NotFound);
    } else if !IsOwner(db.members, userId, teamId) {
      raw := Fail(Forbidden);
    } else {
      db.teams := db.teams[teamId := PatchedTeam(db.teams[teamId], patch)];
      raw := Ok(db.teams[teamId]);
    }
    r := DecoratedPassingHttp(raw);
  }

  /** The memberships of every other team. */
  function WithoutTeam(members: map<MemberKey, Role>, teamId: Id): (r: map<MemberKey, Role>)
    ensures forall k :: k in r <==> k in members && k.teamId != teamId
    ensures forall k :: k in r ==> r[k] == members[k]
  {
    map k | k in members && k.teamId != teamId :: members[k]
  }

  /** Deletes every membership of the team, then the team, in one transaction. */
  method DeleteTeam(db: Db, teamId: Id, userId: Id) returns (r: Outcome<()>)
    requires db.Valid()
    modifies db`teams, db`members
    ensures db.Valid()
    ensures r.Ok? <==> old(IsOwner(db.members, userId, teamId))
    ensures r.Err? ==> r == Fail(Forbidden) && db.teams == old(db.teams) && db.members == old(db.members)
    ensures r.Ok? ==> db.members == WithoutTeam(old(db.members), teamId) && db.teams == old(db.teams) - {teamId}
    ensures r.Ok? ==> Owners(db.members, teamId) == {}
  {
    var raw: Outcome<()>;
    if !IsOwner(db.members, userId, teamId) {
      raw := Fail(Forbidden);
    } else {
      db.members := WithoutTeam(db.members, teamId);
      db.teams := db.teams - {teamId};
      raw := Ok(());
    }
    r := DecoratedPassingHttp(raw);
  }

  // ---- membership changes ----

  method RemoveUserFromTeam(db: Db, teamId: Id, targetId: Id, actorId: Id) returns (r: Outcome<Role>)
    requires db.Valid()
    modifies db`members
    ensures db.Valid()
    ensures old(!IsOwner(db.members, actorId, teamId)) ==> r == Fail(Forbidden)
    ensures old(IsOwner(db.members, actorId, teamId) && MemberKey(targetId, teamId) !in db.members) ==> r == Fail(NotFound)
    ensures r.Ok? <==> old(IsOwner(db.members, actorId, teamId) && MemberKey(targetId, teamId) in db.members)
    ensures r.Err? ==> db.members == old(db.members)
    ensures r.Ok? ==> r.value == old(db.members[MemberKey(targetId, teamId)])
    ensures r.Ok? ==> db.members == old(db.members) - {MemberKey(targetId, teamId)}
  {
    var raw: Outcome<Role>;
    var target := MemberKey(targetId, teamId);
    if !IsOwner(db.members, actorId, teamId) {
      raw := Fail(Forbidden);
    } else if target !in db.members {
      raw := Err(RecordNotFound);
    } else {
      raw := Ok(db.members[target]);
      db.members := db.members - {target};
    }
    r := DecoratedPassingHttp(raw);
  }

  /** Nothing stops an owner from removing themselves: the sole owner of a
      team can leave it without any owner. */
  lemma SoleOwnerCanRemoveThemselves(members: map<MemberKey, Role>, teamId: Id, userId: Id)
    requires Owners(members, teamId) == {userId}
    ensures IsOwner(members, userId, teamId)
    ensures Owners(members - {MemberKey(userId, teamId)}, teamId) == {}
  {
    OwnersMeansOwner(members, teamId, userId);
    var after := members - {MemberKey(userId, teamId)};
    forall u | u in Owners(after, teamId)
      ensures false
    {
      OwnersMeansOwner(after, teamId, u);
      OwnersMeansOwner(members, teamId, u);
    }
  }

  method TransferOwnership(db: Db, teamId: Id, newOwnerId: Id, currentOwnerId: Id) returns (r: Outcome<()>)
    requires db.Valid()
    modifies db`members
    ensures db.Valid()
    ensures old(!IsOwner(db.members, currentOwnerId, teamId)) ==> r == Fail(Forbidden)
    ensures old(IsOwner(db.members, currentOwnerId, teamId) && MemberKey(newOwnerId, teamId) !in db.members) ==> r == Fail(NotFound)
    ensures r.Ok? <==> old(IsOwner(db.members, currentOwnerId, teamId) && MemberKey(newOwnerId, teamId) in db.members)
    ensures r.Err? ==> db.members == old(db.members)
    ensures r.Ok? ==> db.members == old(db.members)[MemberKey(currentOwnerId, teamId) := ADMIN][MemberKey(newOwnerId, teamId) := OWNER]
  {
    var raw: Outcome<()>;
    var current, target := MemberKey(currentOwnerId, teamId), MemberKey(newOwnerId, teamId);
    if !IsOwner(db.members, currentOwnerId, teamId) {
      raw := Fail(Forbidden);
    } else if target !in db.members {
      raw := Fail(NotFound);
    } else {
      db.members := db.members[current := ADMIN][target := OWNER];
      raw := Ok(());
    }
    r := DecoratedPassingHttp(raw);
  }

  /** A transfer moves ownership from the current owner to the new one and
      leaves every other owner of the team an owner. */
  lemma TransferMovesOwnership(members: map<MemberKey, Role>, teamId: Id, newOwnerId: Id, currentOwnerId: Id)
    requires IsOwner(members, currentOwnerId, teamId) && MemberKey(newOwnerId, teamId) in members
    ensures var after := members[MemberKey(currentOwnerId, teamId) := ADMIN][MemberKey(newOwnerId, teamId) := OWNER];
      Owners(after, teamId) == Owners(members, teamId) - {currentOwnerId} + {newOwnerId}
  {
    var after := members[MemberKey(currentOwnerId, teamId) := ADMIN][MemberKey(newOwnerId, teamId) := OWNER];
    forall u
      ensures u in Owners(after, teamId) <==> u in Owners(members, teamId) - {currentOwnerId} + {newOwnerId}
    {
      OwnersMeansOwner(after, teamId, u);
      OwnersMeansOwner(members, teamId, u);
    }
  }

  /** The checks of leaveTeam before the decorator sees the outcome: a
      non-member gets NotFound and the owner gets Forbidden. */
  function LeaveCheck(members: map<MemberKey, Role>, teamId: Id, userId: Id): (r: Outcome<()>)
    ensures MemberKey(userId, teamId) !in members ==> r == Fail(NotFound)
    ensures IsOwner(members, userId, teamId) ==> r == Fail(Forbidden)
    ensures r.Ok? <==> MemberKey(userId, teamId) in members && !IsOwner(members, userId, teamId)
  {
    var key := MemberKey(userId, teamId);
    if key !in members then Fail(NotFound)
    else if members[key] == OWNER then Fail(Forbidden)
    else Ok(())
  }

  /** Under `@HandlePrismaError()` as written, both refusals of leaveTeam
      reach the client as InternalServerError; the corrected decorator keeps
      NotFound and Forbidden. */
  lemma LeaveTeamAsWrittenMasksRefusals(members: map<MemberKey, Role>, teamId: Id, userId: Id)
    requires !(MemberKey(userId, teamId) in members && !IsOwner(members, userId, teamId))
    ensures Decorated(LeaveCheck(members, teamId, userId)) == Fail(InternalServerError)
    ensures IsOwner(members, userId, teamId) ==>
              DecoratedPassingHttp(LeaveCheck(members, teamId, userId)) == Fail(Forbidden)
    ensures MemberKey(userId, teamId) !in members ==>
              DecoratedPassingHttp(LeaveCheck(members, teamId, userId)) == Fail(NotFound)
  {
  }

  method LeaveTeam(db: Db, teamId: Id, userId: Id) returns (r: Outcome<()>)
    requires db.Valid()
    modifies db`members
    ensures db.Valid()
    ensures old(MemberKey(userId, teamId) !in db.members) ==> r == Fail(NotFound)
    ensures old(IsOwner(db.members, userId, teamId)) ==> r == Fail(Forbidden)
    ensures r.Ok? <==> old(MemberKey(userId, teamId) in db.members && !IsOwner(db.members, userId, teamId))
    ensures r.Err? ==> db.members == old(db.members)
    ensures r.Ok? ==> db.members == old(db.members) - {MemberKey(userId, teamId)}
  {
    var raw := LeaveCheck(db.members, teamId, userId);
    if raw.Ok? {
      db.members := db.members - {MemberKey(userId, teamId)};
    }
    r := DecoratedPassingHttp(raw);
  }

  /** Leaving never changes who owns the team. */
  lemma LeaveKeepsOwners(members: map<MemberKey, Role>, teamId: Id, userId: Id)
    requires MemberKey(userId, teamId) in members && !IsOwner(members, userId, teamId)
    ensures Owners(members - {MemberKey(userId, teamId)}, teamId) == Owners(members, teamId)
  {
    var after := members - {MemberKey(userId, teamId)};
    forall u
      ensures u in Owners(after, teamId) <==> u in Owners(members, teamId)
    {
      OwnersMeansOwner(after, teamId, u);
      OwnersMeansOwner(members, teamId, u);
    }
  }
}
