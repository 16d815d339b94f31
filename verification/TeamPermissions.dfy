/** What each team operation demands of its caller and what it then does, in the tables' own terms
    (src/app/_actions/teams.ts and src/server/modules/teams/team.service.ts). */
module TeamPermissions {
  import opened Prelude
  import opened Teams
  import opened TeamInvariant

  /** The user holds, in that team, a role with the permission. */
  predicate Grants(db: Db, user: int, team: int, permission: string) {
    && Seat(team, user) in db.members && db.members[Seat(team, user)] in db.roles
    && permission in db.roles[db.members[Seat(team, user)]].permissions
  }

  function RankOf(db: Db, user: int, team: int): int
    requires Seat(team, user) in db.members && db.members[Seat(team, user)] in db.roles
  {
    db.roles[db.members[Seat(team, user)]].rank
  }

  /** The one holder left of a role named Owner. */
  predicate Last(db: Db, user: int, team: int)
    requires Seat(team, user) in db.members && db.members[Seat(team, user)] in db.roles
  {
    && db.roles[db.members[Seat(team, user)]].name == "Owner"
    && forall m ::
         m in db.members && m.team == team && db.members[m] in db.roles && db.roles[db.members[m]].name == "Owner"
         ==> m.user == user
  }

  lemma LastIff(db: Db, user: int, team: int)
    requires Seat(team, user) in db.members && db.members[Seat(team, user)] in db.roles
    ensures IsLastOwner(db, team, db.roles[db.members[Seat(team, user)]]) <==> Last(db, user, team)
  {
    var seat, owners := Seat(team, user), Owners(db, team);
    if db.roles[db.members[seat]].name == "Owner" {
      assert seat in owners;
      if |owners| <= 1 {
        forall m | m in owners ensures m == seat {
          assert {m, seat} <= owners;
          SubsetCard({m, seat}, owners);
        }
        assert forall m ::
          m in db.members && m.team == team && db.members[m] in db.roles && db.roles[db.members[m]].name == "Owner"
          ==> m in owners;
      } else if Last(db, user, team) {
        assert forall m :: m in owners ==> m == seat;
        assert owners <= {seat};
        SubsetCard(owners, {seat});
      }
    }
  }

  // ---- Roles ----

  lemma CreateRoleIff(db: Db, actor: int, team: int, id: int, name: string, permissions: seq<string>, rank: int)
    ensures
      var r := CreateRole(db, actor, team, id, name, permissions, rank);
      && (r == Err(Forbidden) <==> !Grants(db, actor, team, "team:manage_roles"))
      && (r.Ok? <==>
            && Grants(db, actor, team, "team:manage_roles")
            && 1 <= rank <= 99 && rank < RankOf(db, actor, team)
            && Elems(permissions) <= PERMISSIONS && Trim(name) != ""
            && forall x :: x in db.roles && db.roles[x].team == team ==> db.roles[x].name != Trim(name))
      && (r.Ok? ==>
            r.value == db.(roles := db.roles[id := Role(team, Trim(name), Elems(permissions), rank, false)]))
  {
  }

  lemma UpdateRoleIff(db: Db, actor: int, team: int, id: int, name: Option<string>, permissions: Option<seq<string>>,
                      rank: Option<int>)
    ensures
      var r := UpdateRole(db, actor, team, id, name, permissions, rank);
      var renamed := name.Some? && name.value != "";
      && (r == Err(Forbidden) <==> !Grants(db, actor, team, "team:manage_roles"))
      && (r.Ok? <==>
            && Grants(db, actor, team, "team:manage_roles") && id in db.roles && db.roles[id].team == team
            && db.roles[id].rank < RankOf(db, actor, team)
            && (rank.Some? ==> rank.value < RankOf(db, actor, team))
            && (db.roles[id].isSystem ==> !renamed && rank == None)
            && (permissions.Some? ==> db.roles[id].name != "Owner" && Elems(permissions.value) <= PERMISSIONS)
            && (renamed && Trim(name.value) != db.roles[id].name ==>
                  forall x :: x in db.roles && db.roles[x].team == team ==> db.roles[x].name != Trim(name.value)))
      && (r.Ok? ==>
            && r.value == db.(roles := r.value.roles) && r.value.roles.Keys == db.roles.Keys
            && (forall x :: x in db.roles && x != id ==> r.value.roles[x] == db.roles[x])
            && r.value.roles[id].team == team && r.value.roles[id].isSystem == db.roles[id].isSystem
            && r.value.roles[id].name == (if renamed then Trim(name.value) else db.roles[id].name)
            && r.value.roles[id].rank == (if rank.Some? then rank.value else db.roles[id].rank)
            && r.value.roles[id].permissions
               == if permissions.Some? then Elems(permissions.value) else db.roles[id].permissions)
  {
  }

  lemma DeleteRoleIff(db: Db, actor: int, team: int, id: int)
    ensures
      var r := DeleteRole(db, actor, team, id);
      && (r == Err(Forbidden) <==> !Grants(db, actor, team, "team:manage_roles"))
      && (r.Ok? <==>
            && Grants(db, actor, team, "team:manage_roles") && id in db.roles && db.roles[id].team == team
            && db.roles[id].rank < RankOf(db, actor, team) && !db.roles[id].isSystem
            && forall m :: m in db.members ==> db.members[m] != id)
      && (r.Ok? ==>
            && r.value.roles == db.roles - {id}
            && r.value.users == db.users && r.value.teams == db.teams && r.value.members == db.members
            && (forall a :: a in r.value.invites <==> a in db.invites && db.invites[a].roleId != id)
            && (forall a :: a in r.value.invites ==> r.value.invites[a] == db.invites[a]))
  {
  }

  // ---- Members ----

  lemma ChangeMemberRoleIff(db: Db, actor: int, team: int, user: int, roleId: int)
    ensures
      var r, seat := ChangeMemberRole(db, actor, team, user, roleId), Seat(team, user);
      && (r == Err(Forbidden) <==> !Grants(db, actor, team, "team:manage_members"))
      && (r.Ok? <==>
            && Grants(db, actor, team, "team:manage_members") && user != actor
            && seat in db.members && db.members[seat] in db.roles && roleId in db.roles && db.roles[roleId].team == team
            && RankOf(db, user, team) < RankOf(db, actor, team) && db.roles[roleId].rank < RankOf(db, actor, team)
            && !Last(db, user, team))
      && (r.Ok? ==> r.value == db.(members := db.members[seat := roleId]))
  {
    if Seat(team, user) in db.members && db.members[Seat(team, user)] in db.roles {
      LastIff(db, user, team);
    }
  }

  lemma RemoveMemberIff(db: Db, actor: int, team: int, user: int)
    ensures
      var r, seat := RemoveMember(db, actor, team, user), Seat(team, user);
      && (r == Err(Forbidden) <==> !Grants(db, actor, team, "team:manage_members"))
      && (r.Ok? <==>
            && Grants(db, actor, team, "team:manage_members")
            && seat in db.members && db.members[seat] in db.roles
            && (user == actor || RankOf(db, user, team) < RankOf(db, actor, team))
            && !Last(db, user, team))
      && (r.Ok? ==> Departed(db, r.value, seat))
  {
    if Seat(team, user) in db.members && db.members[Seat(team, user)] in db.roles {
      LastIff(db, user, team);
    }
  }

  /** The seat is gone, its user is on that team no longer, and nothing else changed. */
  predicate Departed(db: Db, after: Db, seat: Seat) {
    && after.members == db.members - {seat}
    && after.teams == db.teams && after.roles == db.roles && after.invites == db.invites
    && after.users.Keys == db.users.Keys
    && forall u :: u in db.users ==>
         && after.users[u].email == db.users[u].email
         && after.users[u].active
            == if u == seat.user && db.users[u].active == Some(seat.team) then None else db.users[u].active
  }

  lemma LeaveTeamIff(db: Db, user: int, team: int)
    ensures
      var r, seat := LeaveTeam(db, user, team), Seat(team, user);
      && (r.Ok? <==>
            && seat in db.members && db.members[seat] in db.roles && team in db.teams && !db.teams[team].isPersonal
            && !Last(db, user, team))
      && (r.Ok? ==> Departed(db, r.value, seat))
  {
    if Seat(team, user) in db.members && db.members[Seat(team, user)] in db.roles {
      LastIff(db, user, team);
    }
  }

  // ---- Invites ----

  lemma InviteMemberIff(db: Db, actor: int, team: int, email: string, roleId: int, token: string, now: int)
    ensures
      var r, a := InviteMember(db, actor, team, email, roleId, token, now), Address(team, Lower(Trim(email)));
      && (r == Err(Forbidden) <==> !Grants(db, actor, team, "team:manage_members"))
      && (r.Ok? <==>
            && Grants(db, actor, team, "team:manage_members")
            && roleId in db.roles && db.roles[roleId].team == team && db.roles[roleId].rank < RankOf(db, actor, team)
            && forall u :: u in db.users && Seat(team, u) in db.members ==> db.users[u].email != a.email)
      && (r.Ok? ==>
            r.value == db.(invites := db.invites[a := Invite(roleId, token, now + 604_800_000, false, false)]))
  {
  }

  lemma RevokeInviteIff(db: Db, actor: int, a: Address)
    ensures
      var r := RevokeInvite(db, actor, a);
      && (r == Err(Forbidden) <==> !Grants(db, actor, a.team, "team:manage_members"))
      && (r.Ok? <==> Grants(db, actor, a.team, "team:manage_members") && a in db.invites)
      && (r.Ok? ==>
            var i := db.invites[a];
            r.value == db.(invites := db.invites[a := Invite(i.roleId, i.token, i.expiresAt, i.accepted, true)]))
  {
  }

  /** An invite is accepted if it was neither used nor revoked, has not expired and was sent to the
      user's address; the user then holds its role, is switched to its team, and it is used up. */
  lemma AcceptIff(db: Db, user: int, token: string, now: int, a: Address)
    requires TokensUnique(db) && a in db.invites && db.invites[a].token == token
    ensures
      var r, i := AcceptInvite(db, user, token, now), db.invites[a];
      && (r.Ok? <==>
            && !i.revoked && !i.accepted && now <= i.expiresAt
            && user in db.users && Lower(db.users[user].email) == a.email)
      && (r.Ok? ==>
            && r.value.teams == db.teams && r.value.roles == db.roles
            && r.value.members == db.members[Seat(a.team, user) := i.roleId]
            && r.value.invites == db.invites[a := Invite(i.roleId, i.token, i.expiresAt, true, false)]
            && r.value.users == db.users[user := User(db.users[user].email, Some(a.team))])
  {
  }

  lemma UnknownTokenRefused(db: Db, user: int, token: string, now: int)
    requires forall a :: a in db.invites ==> db.invites[a].token != token
    ensures AcceptInvite(db, user, token, now) == Err(InviteNotFound)
  {
  }

  // ---- Accounts and teams ----

  /** An account is opened under the address in lower case, if nobody has it. */
  lemma RegisterIff(db: Db, id: int, email: string)
    ensures
      var r, address := Register(db, id, email), Lower(Trim(email));
      && (r.Ok? <==> forall u :: u in db.users ==> db.users[u].email != address)
      && (r.Ok? ==> r.value == db.(users := db.users[id := User(address, None)]))
  {
  }

  /** Lower case, letter by letter. */
  lemma LowerMeans(s: string, i: nat)
    requires i < |s|
    ensures |Lower(s)| == |s|
    ensures 'A' <= s[i] <= 'Z' ==> Lower(s)[i] as int == s[i] as int + 32
    ensures !('A' <= s[i] <= 'Z') ==> Lower(s)[i] == s[i]
  {
  }

  lemma DeleteTeamIff(db: Db, actor: int, team: int, brokerOk: bool)
    ensures
      var r := DeleteTeam(db, actor, team, brokerOk);
      && (r == Err(Forbidden) <==> !Grants(db, actor, team, "team:manage_settings") || team !in db.teams)
      && (r.Ok? <==>
            && Grants(db, actor, team, "team:manage_settings") && team in db.teams && !db.teams[team].isPersonal
            && brokerOk)
      && (r.Ok? ==>
            && r.value.teams == db.teams - {team}
            && (forall x :: x in r.value.roles <==> x in db.roles && db.roles[x].team != team)
            && (forall m :: m in r.value.members <==> m in db.members && m.team != team)
            && (forall a :: a in r.value.invites <==> a in db.invites && a.team != team)
            && (forall x :: x in r.value.roles ==> r.value.roles[x] == db.roles[x])
            && (forall m :: m in r.value.members ==> r.value.members[m] == db.members[m])
            && (forall a :: a in r.value.invites ==> r.value.invites[a] == db.invites[a])
            && r.value.users.Keys == db.users.Keys
            && forall u :: u in db.users ==>
                 && r.value.users[u].email == db.users[u].email
                 && r.value.users[u].active
                    == if db.users[u].active == Some(team) then None else db.users[u].active)
  {
  }

  lemma SwitchIff(db: Db, user: int, team: int)
    ensures
      var r := SwitchActiveTeam(db, user, team);
      && (r.Ok? <==> Seat(team, user) in db.members && user in db.users)
      && (r.Ok? ==> r.value == db.(users := db.users[user := User(db.users[user].email, Some(team))]))
  {
  }

  /** The thirteen permissions, and what the four seeded roles grant. */
  lemma SeededRolesAre(team: int, ids: Ids)
    requires Distinct(ids)
    ensures PERMISSIONS == {
      "device:read", "device:create", "device:update", "device:delete", "device:revoke", "command:read",
      "command:execute", "ai:use", "audit:read", "team:read", "team:manage_members", "team:manage_roles",
      "team:manage_settings"}
    ensures
      var roles := SeededRoles(team, ids);
      && roles.Keys == {ids.owner, ids.admin, ids.operator, ids.viewer}
      && roles[ids.owner] == Role(team, "Owner", PERMISSIONS, 100, true)
      && roles[ids.admin] == Role(team, "Admin", PERMISSIONS - {"team:manage_settings"}, 80, true)
      && roles[ids.operator] == Role(team, "Operator", {
           "device:read", "device:create", "device:update", "command:read", "command:execute", "ai:use", "audit:read",
           "team:read"}, 50, true)
      && roles[ids.viewer] == Role(team, "Viewer", {"device:read", "command:read", "audit:read", "team:read"}, 10, true)
  {
  }

  /** A new team: its four roles, and its creator as Owner. */
  lemma CreateTeamIff(db: Db, owner: int, team: int, isPersonal: bool, ids: Ids)
    requires FreshTeam(db, team, ids)
    ensures
      var r := CreateTeam(db, owner, team, isPersonal, ids);
      && (r.Ok? <==> owner in db.users)
      && (r.Ok? ==>
            && r.value.users == db.users && r.value.invites == db.invites
            && r.value.teams == db.teams[team := Team(isPersonal, owner, ids.owner)]
            && r.value.members == db.members[Seat(team, owner) := ids.owner]
            && r.value.roles.Keys == db.roles.Keys + {ids.owner, ids.admin, ids.operator, ids.viewer}
            && (forall x :: x in db.roles ==> r.value.roles[x] == db.roles[x])
            && (forall x :: x in SeededRoles(team, ids) ==> r.value.roles[x] == SeededRoles(team, ids)[x]))
  {
  }

  /** A first team is made exactly for a user who is in none, and becomes the active one. */
  lemma EnsurePersonalTeamIff(db: Db, user: int, team: int, ids: Ids)
    ensures
      var r := EnsurePersonalTeam(db, user, team, ids);
      && ((exists m :: m in db.members && m.user == user) ==> r == Ok(db))
      && ((forall m :: m in db.members ==> m.user != user) ==>
            && (r.Ok? <==> user in db.users)
            && (r.Ok? ==>
                  && r.value.teams == db.teams[team := Team(true, user, ids.owner)]
                  && r.value.members == db.members[Seat(team, user) := ids.owner]
                  && r.value.users == db.users[user := User(db.users[user].email, Some(team))]))
  {
  }

  // ---- Over runs ----

  /** A team that goes in a run was deleted by somebody who at that moment held a role with
      "team:manage_settings" in it, and it was nobody's personal team. */
  lemma {:induction false} TeamGoneBy(db: Db, ops: seq<Op>, team: int) returns (i: nat)
    requires team in db.teams && team !in Run(db, ops).teams
    ensures i < |ops| && ops[i].DeletesTeam? && ops[i].team == team
    ensures
      var when := Run(db, ops[..i]);
      && team in when.teams && !when.teams[team].isPersonal
      && Grants(when, ops[i].actor, team, "team:manage_settings")
    decreases |ops|
  {
    var after := Next(db, ops[0]);
    if team in after.teams {
      var j := TeamGoneBy(after, ops[1..], team);
      i := j + 1;
      assert ops[..i] == [ops[0]] + ops[1..][..j];
      assert ops[..i][0] == ops[0] && ops[..i][1..] == ops[1..][..j];
    } else {
      i := 0;
      assert ops[..0] == [];
      OnlyDeleted(db, ops[0], team);
    }
  }

  lemma OnlyDeleted(db: Db, op: Op, team: int)
    requires team in db.teams && team !in Next(db, op).teams
    ensures op.DeletesTeam? && op.team == team && Grants(db, op.actor, team, "team:manage_settings")
    ensures !db.teams[team].isPersonal
  {
  }

  /** So members without it never remove their team, however many operations they try. */
  lemma {:induction false} TeamOutlivesUnentitled(db: Db, ops: seq<Op>, team: int)
    requires team in db.teams
    requires forall i :: 0 <= i < |ops| && ops[i].DeletesTeam? && ops[i].team == team ==>
      !Grants(Run(db, ops[..i]), ops[i].actor, team, "team:manage_settings")
    ensures team in Run(db, ops).teams
  {
    if team !in Run(db, ops).teams {
      var i := TeamGoneBy(db, ops, team);
    }
  }
}
