/** What every operation on teams keeps, over all runs. */
module TeamInvariant {
  import opened Prelude
  import opened Teams

  // ---- The invariant ----

  predicate RoleFits(team: Team, id: int, role: Role) {
    if id == team.ownerRole
    then role.name == OWNER && role.permissions == PERMISSIONS && role.rank == 100 && role.isSystem
    else role.name != OWNER && role.rank < 100
  }

  /** Each role belongs to a team, and only the seeded one is named Owner or ranks 100. */
  predicate RolesOk(db: Db) {
    forall r :: r in db.roles ==> db.roles[r].team in db.teams && RoleFits(db.teams[db.roles[r].team], r, db.roles[r])
  }

  predicate NamesUnique(db: Db) {
    forall r, s ::
      r in db.roles && s in db.roles && db.roles[r].team == db.roles[s].team && db.roles[r].name == db.roles[s].name
      ==> r == s
  }

  /** Each team has its Owner role, held by its creator. */
  predicate TeamsOk(db: Db) {
    forall t :: t in db.teams ==>
      && db.teams[t].ownerRole in db.roles && db.roles[db.teams[t].ownerRole].team == t
      && Seat(t, db.teams[t].owner) in db.members && db.members[Seat(t, db.teams[t].owner)] == db.teams[t].ownerRole
  }

  predicate SeatFits(db: Db, m: Seat, roleId: int) {
    && m.team in db.teams && m.user in db.users
    && roleId in db.roles && db.roles[roleId].team == m.team
    && (roleId == db.teams[m.team].ownerRole ==> m.user == db.teams[m.team].owner)
  }

  /** Members hold roles of their own team, and only the creator holds the Owner role. */
  predicate MembersOk(db: Db) {
    forall m :: m in db.members ==> SeatFits(db, m, db.members[m])
  }

  predicate InviteFits(db: Db, a: Address, i: Invite) {
    && a.team in db.teams && i.roleId in db.roles && db.roles[i.roleId].team == a.team
    && i.roleId != db.teams[a.team].ownerRole
  }

  predicate InvitesOk(db: Db) {
    forall a :: a in db.invites ==> InviteFits(db, a, db.invites[a])
  }

  predicate TokensUnique(db: Db) {
    forall a, b :: a in db.invites && b in db.invites && db.invites[a].token == db.invites[b].token ==> a == b
  }

  /** A user's active team is one they belong to. */
  predicate ActiveOk(db: Db) {
    forall u :: u in db.users && db.users[u].active.Some? ==> Seat(db.users[u].active.value, u) in db.members
  }

  /** A pending invite's address never belongs to a member. */
  predicate Uninvited(db: Db) {
    forall a :: a in db.invites && Pending(db.invites[a]) ==> !MemberAt(db, a)
  }

  predicate EmailsOk(db: Db) {
    && (forall u :: u in db.users ==> Lower(db.users[u].email) == db.users[u].email)
    && (forall u, v :: u in db.users && v in db.users && db.users[u].email == db.users[v].email ==> u == v)
  }

  /** What even overlapping operations keep. */
  predicate Core(db: Db) {
    && RolesOk(db) && NamesUnique(db) && TeamsOk(db) && MembersOk(db) && InvitesOk(db)
    && TokensUnique(db) && EmailsOk(db)
  }

  predicate Inv(db: Db) {
    Core(db) && ActiveOk(db) && Uninvited(db)
  }

  // ---- Each row update keeps the invariant ----

  lemma UserKeeps(db: Db, id: int, email: string)
    requires Inv(db) && id !in db.users && !HasEmail(db, Normalise(email))
    ensures Inv(WithUser(db, id, Normalise(email)))
  {
    UserKeepsEmails(db, id, email);
    UserKeepsSeats(db, id, Normalise(email));
    UserKeepsUninvited(db, id, Normalise(email));
  }

  lemma UserKeepsEmails(db: Db, id: int, email: string)
    requires EmailsOk(db) && ActiveOk(db) && id !in db.users && !HasEmail(db, Normalise(email))
    ensures EmailsOk(WithUser(db, id, Normalise(email))) && ActiveOk(WithUser(db, id, Normalise(email)))
  {
    LowerIdempotent(Trim(email));
  }

  lemma UserKeepsSeats(db: Db, id: int, email: string)
    requires MembersOk(db) && InvitesOk(db)
    ensures MembersOk(WithUser(db, id, email)) && InvitesOk(WithUser(db, id, email))
  {
    var after := WithUser(db, id, email);
    forall m | m in after.members ensures SeatFits(after, m, after.members[m]) {
      assert SeatFits(db, m, db.members[m]);
    }
    InvitesCarryOver(db, after);
  }

  lemma UserKeepsUninvited(db: Db, id: int, email: string)
    requires MembersOk(db) && Uninvited(db) && id !in db.users
    ensures Uninvited(WithUser(db, id, email))
  {
    var after := WithUser(db, id, email);
    forall a | a in after.invites && Pending(after.invites[a]) ensures !MemberAt(after, a) {
      assert !MemberAt(db, a);
      assert Seat(a.team, id) in db.members ==> SeatFits(db, Seat(a.team, id), db.members[Seat(a.team, id)]);
    }
  }

  lemma ActiveKeeps(db: Db, user: int, team: Option<int>)
    requires Inv(db) && user in db.users && (team.Some? ==> Seat(team.value, user) in db.members)
    ensures Inv(WithActive(db, user, team))
  {
    var after := WithActive(db, user, team);
    SameEmails(db, after);
    SeatsCarryOver(db, after);
    InvitesCarryOver(db, after);
  }

  /** Nobody's address changed. */
  lemma SameEmails(db: Db, after: Db)
    requires EmailsOk(db) && Uninvited(db) && after.members.Keys <= db.members.Keys
    requires forall a :: a in after.invites ==> a in db.invites && after.invites[a] == db.invites[a]
    requires after.users.Keys == db.users.Keys
    requires forall u :: u in db.users ==> after.users[u].email == db.users[u].email
    ensures EmailsOk(after) && Uninvited(after)
  {
    forall a | a in after.invites && Pending(after.invites[a]) ensures !MemberAt(after, a) {
      assert !MemberAt(db, a);
    }
  }

  lemma SeatsCarryOver(db: Db, after: Db)
    requires MembersOk(db) && after.roles == db.roles && after.teams == db.teams && after.users.Keys == db.users.Keys
    requires forall m :: m in after.members ==> m in db.members && after.members[m] == db.members[m]
    ensures MembersOk(after)
  {
    forall m | m in after.members ensures SeatFits(after, m, after.members[m]) {
      assert SeatFits(db, m, db.members[m]);
    }
  }

  /** A custom or system role other than Owner may be written under a name free in its team. */
  predicate RoleWritable(db: Db, id: int, role: Role) {
    && role.team in db.teams && role.name != OWNER && role.rank < 100
    && id != db.teams[role.team].ownerRole
    && (id in db.roles ==> db.roles[id].team == role.team)
    && (forall r :: r in db.roles && r != id && db.roles[r].team == role.team ==> db.roles[r].name != role.name)
  }

  lemma RoleKeepsNames(db: Db, id: int, role: Role)
    requires RolesOk(db) && NamesUnique(db) && TeamsOk(db) && RoleWritable(db, id, role)
    ensures RolesOk(WithRole(db, id, role)) && NamesUnique(WithRole(db, id, role))
  {
  }

  lemma RoleKeepsTeams(db: Db, id: int, role: Role)
    requires TeamsOk(db) && RoleWritable(db, id, role)
    ensures TeamsOk(WithRole(db, id, role))
  {
  }

  lemma RoleKeepsHolders(db: Db, id: int, role: Role)
    requires MembersOk(db) && InvitesOk(db) && RoleWritable(db, id, role)
    ensures MembersOk(WithRole(db, id, role)) && InvitesOk(WithRole(db, id, role))
  {
    var after := WithRole(db, id, role);
    forall m | m in after.members ensures SeatFits(after, m, after.members[m]) {
      assert SeatFits(db, m, db.members[m]);
    }
    forall a | a in after.invites ensures InviteFits(after, a, after.invites[a]) {
      assert InviteFits(db, a, db.invites[a]);
    }
  }

  lemma RoleKeeps(db: Db, id: int, role: Role)
    requires Inv(db) && RoleWritable(db, id, role)
    ensures Inv(WithRole(db, id, role))
  {
    RoleKeepsNames(db, id, role);
    RoleKeepsTeams(db, id, role);
    RoleKeepsHolders(db, id, role);
    SameEmails(db, WithRole(db, id, role));
  }

  lemma RoleGoneKeepsHolders(db: Db, id: int)
    requires MembersOk(db) && InvitesOk(db) && !InUse(db, id)
    ensures MembersOk(WithoutRole(db, id)) && InvitesOk(WithoutRole(db, id))
  {
    var after := WithoutRole(db, id);
    forall m | m in after.members ensures SeatFits(after, m, after.members[m]) {
      assert SeatFits(db, m, db.members[m]);
    }
    forall a | a in after.invites ensures InviteFits(after, a, after.invites[a]) {
      assert InviteFits(db, a, db.invites[a]);
    }
  }

  lemma RoleGoneKeeps(db: Db, id: int)
    requires Inv(db) && id in db.roles && id != db.teams[db.roles[id].team].ownerRole && !InUse(db, id)
    ensures Inv(WithoutRole(db, id))
  {
    var after := WithoutRole(db, id);
    RoleGoneKeepsHolders(db, id);
    SameEmails(db, after);
    assert TeamsOk(after);
    assert RolesOk(after) && NamesUnique(after);
  }

  lemma SeatKeeps(db: Db, seat: Seat, roleId: int)
    requires Inv(db) && SeatFits(db, seat, roleId)
    requires roleId != db.teams[seat.team].ownerRole && seat.user != db.teams[seat.team].owner
    requires forall a :: a in db.invites && Pending(db.invites[a]) && a.team == seat.team ==>
      a.email != db.users[seat.user].email
    ensures Inv(WithSeat(db, seat, roleId))
  {
    var after := WithSeat(db, seat, roleId);
    assert MembersOk(after) by {
      forall m | m in after.members ensures SeatFits(after, m, after.members[m]) {
        if m != seat {
          assert SeatFits(db, m, db.members[m]);
        }
      }
    }
    InvitesCarryOver(db, after);
    assert Uninvited(after) by {
      forall a | a in after.invites && Pending(after.invites[a]) ensures !MemberAt(after, a) {
        assert !MemberAt(db, a);
      }
    }
    assert TeamsOk(after);
  }

  lemma InvitesCarryOver(db: Db, after: Db)
    requires InvitesOk(db) && after.roles == db.roles && after.teams == db.teams && after.invites == db.invites
    ensures InvitesOk(after)
  {
    forall a | a in after.invites ensures InviteFits(after, a, after.invites[a]) {
      assert InviteFits(db, a, db.invites[a]);
    }
  }

  lemma SeatGoneKeeps(db: Db, seat: Seat)
    requires Inv(db) && seat.team in db.teams && seat.user != db.teams[seat.team].owner
    ensures Inv(WithoutSeat(db, seat))
  {
    SeatGoneKeepsTeams(db, seat);
    SeatGoneKeepsSeats(db, seat);
    SeatGoneKeepsActive(db, seat);
    SeatGoneKeepsEmails(db, seat);
  }

  lemma SeatGoneKeepsTeams(db: Db, seat: Seat)
    requires TeamsOk(db) && seat.team in db.teams && seat.user != db.teams[seat.team].owner
    ensures TeamsOk(WithoutSeat(db, seat))
  {
  }

  lemma SeatGoneKeepsSeats(db: Db, seat: Seat)
    requires MembersOk(db) && InvitesOk(db)
    ensures MembersOk(WithoutSeat(db, seat)) && InvitesOk(WithoutSeat(db, seat))
  {
    SeatsCarryOver(db, WithoutSeat(db, seat));
    InvitesCarryOver(db, WithoutSeat(db, seat));
  }

  lemma SeatGoneKeepsEmails(db: Db, seat: Seat)
    requires EmailsOk(db) && Uninvited(db)
    ensures EmailsOk(WithoutSeat(db, seat)) && Uninvited(WithoutSeat(db, seat))
  {
    SameEmails(db, WithoutSeat(db, seat));
  }

  lemma SeatGoneKeepsActive(db: Db, seat: Seat)
    requires ActiveOk(db)
    ensures ActiveOk(WithoutSeat(db, seat))
  {
  }

  lemma InviteKeeps(db: Db, a: Address, i: Invite)
    requires Inv(db) && InviteFits(db, a, i) && (Pending(i) ==> !MemberAt(db, a))
    requires forall b :: b in db.invites && b != a ==> db.invites[b].token != i.token
    ensures Inv(WithInvite(db, a, i))
  {
    InviteKeepsInvites(db, a, i);
    InviteKeepsUninvited(db, a, i);
    SeatsCarryOver(db, WithInvite(db, a, i));
  }

  lemma InviteKeepsInvites(db: Db, a: Address, i: Invite)
    requires InvitesOk(db) && TokensUnique(db) && InviteFits(db, a, i)
    requires forall b :: b in db.invites && b != a ==> db.invites[b].token != i.token
    ensures InvitesOk(WithInvite(db, a, i)) && TokensUnique(WithInvite(db, a, i))
  {
    var after := WithInvite(db, a, i);
    forall b | b in after.invites ensures InviteFits(after, b, after.invites[b]) {
      assert b != a ==> InviteFits(db, b, db.invites[b]);
    }
  }

  lemma InviteKeepsUninvited(db: Db, a: Address, i: Invite)
    requires Uninvited(db) && (Pending(i) ==> !MemberAt(db, a))
    ensures Uninvited(WithInvite(db, a, i))
  {
    var after := WithInvite(db, a, i);
    forall b | b in after.invites && Pending(after.invites[b]) ensures !MemberAt(after, b) {
      assert !MemberAt(db, b);
    }
  }

  lemma TeamGoneKeeps(db: Db, team: int)
    requires Inv(db)
    ensures Inv(WithoutTeam(db, team))
  {
    TeamGoneKeepsRoles(db, team);
    TeamGoneKeepsTeams(db, team);
    TeamGoneKeepsHolders(db, team);
    TeamGoneKeepsUsers(db, team);
  }

  lemma TeamGoneKeepsRoles(db: Db, team: int)
    requires RolesOk(db) && NamesUnique(db) && TokensUnique(db)
    ensures RolesOk(WithoutTeam(db, team)) && NamesUnique(WithoutTeam(db, team)) && TokensUnique(WithoutTeam(db, team))
  {
  }

  lemma TeamGoneKeepsTeams(db: Db, team: int)
    requires TeamsOk(db)
    ensures TeamsOk(WithoutTeam(db, team))
  {
  }

  lemma TeamGoneKeepsHolders(db: Db, team: int)
    requires MembersOk(db) && InvitesOk(db)
    ensures MembersOk(WithoutTeam(db, team)) && InvitesOk(WithoutTeam(db, team))
  {
    var after := WithoutTeam(db, team);
    forall m | m in after.members ensures SeatFits(after, m, after.members[m]) {
      assert SeatFits(db, m, db.members[m]);
    }
    forall a | a in after.invites ensures InviteFits(after, a, after.invites[a]) {
      assert InviteFits(db, a, db.invites[a]);
    }
  }

  lemma TeamGoneKeepsUsers(db: Db, team: int)
    requires ActiveOk(db) && Uninvited(db) && EmailsOk(db)
    ensures ActiveOk(WithoutTeam(db, team)) && Uninvited(WithoutTeam(db, team)) && EmailsOk(WithoutTeam(db, team))
  {
    SameEmails(db, WithoutTeam(db, team));
  }

  // ---- Seeding a team ----

  predicate SeedsFit(team: int, owner: int, isPersonal: bool, ids: Ids) {
    var seeded := SeededRoles(team, ids);
    && seeded.Keys == {ids.owner, ids.admin, ids.operator, ids.viewer}
    && (forall r :: r in seeded ==>
         seeded[r].team == team && RoleFits(Team(isPersonal, owner, ids.owner), r, seeded[r]))
    && (forall r, s :: r in seeded && s in seeded && seeded[r].name == seeded[s].name ==> r == s)
  }

  lemma SeededRolesFit(team: int, owner: int, isPersonal: bool, ids: Ids)
    requires Distinct(ids)
    ensures SeedsFit(team, owner, isPersonal, ids)
  {
    assert OWNER[0] == 'O' && OWNER[1] == 'w';
    assert "Admin"[0] == 'A' && "Operator"[0] == 'O' && "Operator"[1] == 'p' && "Viewer"[0] == 'V';
  }

  lemma TeamKeeps(db: Db, team: int, owner: int, isPersonal: bool, ids: Ids)
    requires Inv(db) && FreshTeam(db, team, ids) && owner in db.users
    ensures Inv(WithTeam(db, team, owner, isPersonal, ids))
  {
    SeededRolesFit(team, owner, isPersonal, ids);
    TeamKeepsRoles(db, team, owner, isPersonal, ids);
    TeamKeepsTeams(db, team, owner, isPersonal, ids);
    TeamKeepsHolders(db, team, owner, isPersonal, ids);
    TeamKeepsUninvited(db, team, owner, isPersonal, ids);
  }

  lemma TeamKeepsRoles(db: Db, team: int, owner: int, isPersonal: bool, ids: Ids)
    requires RolesOk(db) && NamesUnique(db) && FreshTeam(db, team, ids) && SeedsFit(team, owner, isPersonal, ids)
    ensures RolesOk(WithTeam(db, team, owner, isPersonal, ids))
    ensures NamesUnique(WithTeam(db, team, owner, isPersonal, ids))
  {
    var after, seeded := WithTeam(db, team, owner, isPersonal, ids), SeededRoles(team, ids);
    forall r | r in after.roles
      ensures after.roles[r].team in after.teams && RoleFits(after.teams[after.roles[r].team], r, after.roles[r])
      ensures after.roles[r].team == team <==> r in seeded
    {
    }
  }

  lemma TeamKeepsTeams(db: Db, team: int, owner: int, isPersonal: bool, ids: Ids)
    requires TeamsOk(db) && FreshTeam(db, team, ids)
    ensures TeamsOk(WithTeam(db, team, owner, isPersonal, ids))
  {
    var after, seeded := WithTeam(db, team, owner, isPersonal, ids), SeededRoles(team, ids);
    assert seeded.Keys == {ids.owner, ids.admin, ids.operator, ids.viewer};
    forall t | t in after.teams
      ensures
        && after.teams[t].ownerRole in after.roles && after.roles[after.teams[t].ownerRole].team == t
        && Seat(t, after.teams[t].owner) in after.members
        && after.members[Seat(t, after.teams[t].owner)] == after.teams[t].ownerRole
    {
      if t != team {
        assert db.teams[t].ownerRole in db.roles.Keys;
        assert db.teams[t].ownerRole !in seeded;
      }
    }
  }

  lemma TeamKeepsHolders(db: Db, team: int, owner: int, isPersonal: bool, ids: Ids)
    requires MembersOk(db) && InvitesOk(db) && FreshTeam(db, team, ids) && SeedsFit(team, owner, isPersonal, ids)
    requires owner in db.users
    ensures MembersOk(WithTeam(db, team, owner, isPersonal, ids))
    ensures InvitesOk(WithTeam(db, team, owner, isPersonal, ids))
  {
    var after := WithTeam(db, team, owner, isPersonal, ids);
    assert ids.owner in SeededRoles(team, ids);
    forall m | m in after.members ensures SeatFits(after, m, after.members[m]) {
      if m != Seat(team, owner) {
        assert SeatFits(db, m, db.members[m]);
      }
    }
    forall a | a in after.invites ensures InviteFits(after, a, after.invites[a]) {
      assert InviteFits(db, a, db.invites[a]);
    }
  }

  lemma TeamKeepsUninvited(db: Db, team: int, owner: int, isPersonal: bool, ids: Ids)
    requires Uninvited(db) && InvitesOk(db) && team !in db.teams
    ensures Uninvited(WithTeam(db, team, owner, isPersonal, ids))
  {
    var after := WithTeam(db, team, owner, isPersonal, ids);
    forall a | a in after.invites && Pending(after.invites[a]) ensures !MemberAt(after, a) {
      assert !MemberAt(db, a) && InviteFits(db, a, db.invites[a]);
    }
  }

  // ---- Each operation keeps the invariant ----

  /** What a held role tells about its holder. */
  lemma Holder(db: Db, team: int, user: int)
    requires Core(db) && HeldRole(db, Seat(team, user)).Some?
    ensures team in db.teams && user in db.users
    ensures
      var role := HeldRole(db, Seat(team, user)).value;
      && role.team == team && role.rank <= 100
      && (role.name == OWNER <==> user == db.teams[team].owner)
      && (role.rank == 100 <==> user == db.teams[team].owner)
  {
    var m := Seat(team, user);
    assert SeatFits(db, m, db.members[m]);
    assert RoleFits(db.teams[team], db.members[m], db.roles[db.members[m]]);
    if user == db.teams[team].owner {
      assert db.members[m] == db.teams[team].ownerRole;
    }
  }

  /** In a valid store each team has exactly one Owner: its creator, in the seeded role with
      rank 100 and every permission; every other role ranks below it. */
  lemma ExactlyOneOwner(db: Db, team: int)
    requires Core(db) && team in db.teams
    ensures Owners(db, team) == {Seat(team, db.teams[team].owner)}
    ensures
      var owner := HeldRole(db, Seat(team, db.teams[team].owner));
      && owner.Some? && owner.value.rank == 100 && owner.value.permissions == PERMISSIONS
      && forall r :: r in db.roles && db.roles[r].team == team && db.roles[r] != owner.value ==> db.roles[r].rank < 100
  {
    var creator := Seat(team, db.teams[team].owner);
    assert HeldRole(db, creator).Some?;
    assert RoleFits(db.teams[team], db.teams[team].ownerRole, db.roles[db.teams[team].ownerRole]);
    forall m ensures m in Owners(db, team) <==> m == creator {
      if m in db.members && m.team == team && HeldRole(db, m).Some? {
        Holder(db, team, m.user);
      }
      Holder(db, team, creator.user);
    }
    forall r | r in db.roles && db.roles[r].team == team && db.roles[r] != HeldRole(db, creator).value
      ensures db.roles[r].rank < 100
    {
      assert RoleFits(db.teams[team], r, db.roles[r]);
    }
  }

  /** So ensureNotLastOwner refuses exactly for the creator. */
  lemma OnlyCreatorIsLast(db: Db, team: int, user: int)
    requires Core(db) && HeldRole(db, Seat(team, user)).Some?
    ensures team in db.teams
    ensures IsLastOwner(db, team, HeldRole(db, Seat(team, user)).value) <==> user == db.teams[team].owner
  {
    Holder(db, team, user);
    ExactlyOneOwner(db, team);
  }

  lemma TeamOpsKeep(db: Db, user: int, team: int, isPersonal: bool, ids: Ids)
    requires Inv(db) && FreshTeam(db, team, ids)
    ensures CreateTeam(db, user, team, isPersonal, ids).Ok? ==> Inv(CreateTeam(db, user, team, isPersonal, ids).value)
    ensures EnsurePersonalTeam(db, user, team, ids).Ok? ==> Inv(EnsurePersonalTeam(db, user, team, ids).value)
  {
    if user in db.users {
      TeamKeeps(db, team, user, isPersonal, ids);
      PersonalTeamKeeps(db, user, team, ids);
    }
  }

  lemma PersonalTeamKeeps(db: Db, user: int, team: int, ids: Ids)
    requires Inv(db) && FreshTeam(db, team, ids) && user in db.users
    ensures Inv(WithActive(WithTeam(db, team, user, true, ids), user, Some(team)))
  {
    TeamKeeps(db, team, user, true, ids);
    ActiveKeeps(WithTeam(db, team, user, true, ids), user, Some(team));
  }

  lemma CreateRoleKeeps(db: Db, actor: int, team: int, id: int, name: string, permissions: seq<string>, rank: int)
    requires Inv(db) && id !in db.roles && CreateRole(db, actor, team, id, name, permissions, rank).Ok?
    ensures Inv(CreateRole(db, actor, team, id, name, permissions, rank).value)
  {
    Holder(db, team, actor);
    OwnerNameTaken(db, team);
    assert forall r :: r in db.roles && db.roles[r].team == team ==> db.roles[r].name != Trim(name);
    RoleKeeps(db, id, Role(team, Trim(name), Elems(permissions), rank, false));
  }

  lemma OwnerNameTaken(db: Db, team: int)
    requires Core(db) && team in db.teams
    ensures NameUsed(db, team, OWNER)
  {
    var o := db.teams[team].ownerRole;
    assert RoleFits(db.teams[team], o, db.roles[o]);
  }

  lemma UpdateRoleKeeps(db: Db, actor: int, team: int, id: int, name: Option<string>, permissions: Option<seq<string>>,
                        rank: Option<int>)
    requires Inv(db) && UpdateRole(db, actor, team, id, name, permissions, rank).Ok?
    ensures Inv(UpdateRole(db, actor, team, id, name, permissions, rank).value)
  {
    Holder(db, team, actor);
    OwnerNameTaken(db, team);
    var role := db.roles[id];
    assert RoleFits(db.teams[team], id, role);
    var written := UpdateRole(db, actor, team, id, name, permissions, rank).value.roles[id];
    UpdatedNameFree(db, actor, team, id, name, permissions, rank);
    RoleKeeps(db, id, written);
  }

  lemma UpdatedNameFree(db: Db, actor: int, team: int, id: int, name: Option<string>, permissions: Option<seq<string>>,
                        rank: Option<int>)
    requires NamesUnique(db) && UpdateRole(db, actor, team, id, name, permissions, rank).Ok?
    ensures
      var written := UpdateRole(db, actor, team, id, name, permissions, rank).value.roles[id];
      && written.team == team
      && (written.name == db.roles[id].name || !NameUsed(db, team, written.name))
      && forall r :: r in db.roles && r != id && db.roles[r].team == team ==> db.roles[r].name != written.name
  {
  }

  lemma DeleteRoleKeeps(db: Db, actor: int, team: int, id: int)
    requires Inv(db) && DeleteRole(db, actor, team, id).Ok?
    ensures Inv(DeleteRole(db, actor, team, id).value)
  {
    assert RoleFits(db.teams[team], id, db.roles[id]);
    RoleGoneKeeps(db, id);
  }

  lemma ChangeMemberRoleKeeps(db: Db, actor: int, team: int, user: int, roleId: int)
    requires Inv(db) && ChangeMemberRole(db, actor, team, user, roleId).Ok?
    ensures Inv(ChangeMemberRole(db, actor, team, user, roleId).value)
  {
    Holder(db, team, actor);
    Holder(db, team, user);
    OnlyCreatorIsLast(db, team, user);
    assert RoleFits(db.teams[team], roleId, db.roles[roleId]);
    NotInvited(db, team, user);
    SeatKeeps(db, Seat(team, user), roleId);
  }

  /** A member has no pending invite to the team. */
  lemma NotInvited(db: Db, team: int, user: int)
    requires Uninvited(db) && user in db.users && Seat(team, user) in db.members
    ensures forall a :: a in db.invites && Pending(db.invites[a]) && a.team == team ==> a.email != db.users[user].email
  {
    forall a | a in db.invites && Pending(db.invites[a]) && a.team == team ensures a.email != db.users[user].email {
      assert !MemberAt(db, a);
    }
  }

  lemma DepartureKeeps(db: Db, actor: int, team: int, user: int)
    requires Inv(db)
    ensures RemoveMember(db, actor, team, user).Ok? ==> Inv(RemoveMember(db, actor, team, user).value)
    ensures LeaveTeam(db, user, team).Ok? ==> Inv(LeaveTeam(db, user, team).value)
  {
    if HeldRole(db, Seat(team, user)).Some? {
      OnlyCreatorIsLast(db, team, user);
      if user != db.teams[team].owner {
        SeatGoneKeeps(db, Seat(team, user));
      }
    }
  }

  lemma InviteMemberKeeps(db: Db, actor: int, team: int, email: string, roleId: int, token: string, now: int)
    requires Inv(db) && FreshToken(db, token) && InviteMember(db, actor, team, email, roleId, token, now).Ok?
    ensures Inv(InviteMember(db, actor, team, email, roleId, token, now).value)
  {
    Holder(db, team, actor);
    assert RoleFits(db.teams[team], roleId, db.roles[roleId]);
    InviteKeeps(db, Address(team, Normalise(email)), Invite(roleId, token, now + INVITE_MS, false, false));
  }

  lemma RevokeInviteKeeps(db: Db, actor: int, a: Address)
    requires Inv(db) && RevokeInvite(db, actor, a).Ok?
    ensures Inv(RevokeInvite(db, actor, a).value)
  {
    assert InviteFits(db, a, db.invites[a]);
    InviteKeeps(db, a, db.invites[a].(revoked := true));
  }

  /** Accepting never overwrites a membership: the update arm of the upsert is dead. */
  lemma AcceptIsAlwaysNew(db: Db, user: int, named: Option<Address>, now: int)
    requires Inv(db) && Accept(db, user, named, now).Ok?
    ensures named.Some? && named.value in db.invites && user in db.users
    ensures Seat(named.value.team, user) !in db.members && db.users[user].email == named.value.email
  {
    assert !MemberAt(db, named.value);
  }

  lemma UsedKeeps(db: Db, a: Address)
    requires Inv(db) && a in db.invites
    ensures Inv(WithInvite(db, a, db.invites[a].(accepted := true)))
  {
    assert InviteFits(db, a, db.invites[a]);
    InviteKeeps(db, a, db.invites[a].(accepted := true));
  }

  lemma JoinKeeps(db: Db, a: Address, user: int)
    requires Inv(db) && a in db.invites && !Pending(db.invites[a])
    requires user in db.users && db.users[user].email == a.email && Seat(a.team, user) !in db.members
    ensures Inv(WithActive(WithSeat(db, Seat(a.team, user), db.invites[a].roleId), user, Some(a.team)))
  {
    var seat := Seat(a.team, user);
    assert InviteFits(db, a, db.invites[a]);
    assert forall b :: b in db.invites && Pending(db.invites[b]) && b.team == a.team ==> b != a;
    CreatorIsMember(db, a.team);
    SeatKeeps(db, seat, db.invites[a].roleId);
    ActiveKeeps(WithSeat(db, seat, db.invites[a].roleId), user, Some(a.team));
  }

  lemma CreatorIsMember(db: Db, team: int)
    requires TeamsOk(db) && team in db.teams
    ensures Seat(team, db.teams[team].owner) in db.members
  {
  }

  lemma AcceptKeeps(db: Db, user: int, named: Option<Address>, now: int)
    requires Inv(db) && Accept(db, user, named, now).Ok?
    ensures Inv(Accept(db, user, named, now).value)
  {
    AcceptIsAlwaysNew(db, user, named, now);
    UsedKeeps(db, named.value);
    JoinKeeps(WithInvite(db, named.value, db.invites[named.value].(accepted := true)), named.value, user);
  }

  /** Every operation, allowed or refused, keeps the invariant. */
  lemma StepInv(db: Db, op: Op)
    requires Inv(db) && Fresh(db, op)
    ensures Inv(Next(db, op))
  {
    if Apply(db, op).Ok? {
      match op
      case Registers(id, email) => UserKeeps(db, id, email);
      case CreatesTeam(owner, team, ids) => TeamOpsKeep(db, owner, team, false, ids);
      case EnsuresTeam(user, team, ids) => TeamOpsKeep(db, user, team, true, ids);
      case CreatesRole(actor, team, id, name, permissions, rank) =>
        CreateRoleKeeps(db, actor, team, id, name, permissions, rank);
      case UpdatesRole(actor, team, id, name, permissions, rank) =>
        UpdateRoleKeeps(db, actor, team, id, name, permissions, rank);
      case DeletesRole(actor, team, id) => DeleteRoleKeeps(db, actor, team, id);
      case ChangesRole(actor, team, user, id) => ChangeMemberRoleKeeps(db, actor, team, user, id);
      case Removes(actor, team, user) => DepartureKeeps(db, actor, team, user);
      case Invites(actor, team, email, id, token, now) => InviteMemberKeeps(db, actor, team, email, id, token, now);
      case Revokes(actor, team, email) => RevokeInviteKeeps(db, actor, Address(team, email));
      case Accepts(user, token, now) => AcceptKeeps(db, user, Named(db, token), now);
      case Leaves(user, team) => DepartureKeeps(db, user, team, user);
      case DeletesTeam(actor, team, brokerOk) => TeamGoneKeeps(db, team);
      case Switches(user, team) => ActiveKeeps(db, user, Some(team));
    }
  }

  lemma {:induction false} RunInv(db: Db, ops: seq<Op>)
    requires Inv(db) && Legal(db, ops)
    ensures Inv(Run(db, ops))
    decreases |ops|
  {
    if ops != [] {
      StepInv(db, ops[0]);
      RunInv(Next(db, ops[0]), ops[1..]);
    }
  }

  /** From an empty store, in every reachable state each team has exactly one Owner, its
      creator, and an Owner outranks everybody else. */
  lemma OneOwnerAlways(ops: seq<Op>, team: int)
    requires Legal(EMPTY, ops)
    ensures
      var db := Run(EMPTY, ops);
      team in db.teams ==>
        && Owners(db, team) == {Seat(team, db.teams[team].owner)}
        && forall u :: u != db.teams[team].owner && HeldRole(db, Seat(team, u)).Some? ==>
             HeldRole(db, Seat(team, u)).value.rank < 100
  {
    RunInv(EMPTY, ops);
    var db := Run(EMPTY, ops);
    if team in db.teams {
      ExactlyOneOwner(db, team);
      forall u | u != db.teams[team].owner && HeldRole(db, Seat(team, u)).Some?
        ensures HeldRole(db, Seat(team, u)).value.rank < 100
      {
        Holder(db, team, u);
      }
    }
  }

  // ---- Other promises over runs ----

  /** A seeded role keeps its name, rank and mark for as long as its team exists. */
  predicate SameSystemRoles(db: Db, after: Db) {
    forall r :: r in db.roles && db.roles[r].isSystem && db.roles[r].team in after.teams ==>
      && r in after.roles && after.roles[r].isSystem && after.roles[r].team == db.roles[r].team
      && after.roles[r].name == db.roles[r].name && after.roles[r].rank == db.roles[r].rank
  }

  /** A personal team stays. */
  predicate SamePersonalTeams(db: Db, after: Db) {
    forall t :: t in db.teams && db.teams[t].isPersonal ==> t in after.teams && after.teams[t] == db.teams[t]
  }

  lemma NewTeamKeepsRoles(db: Db, team: int, owner: int, isPersonal: bool, ids: Ids)
    requires FreshTeam(db, team, ids)
    ensures SameSystemRoles(db, WithTeam(db, team, owner, isPersonal, ids))
    ensures SamePersonalTeams(db, WithTeam(db, team, owner, isPersonal, ids))
  {
    assert forall r :: r in db.roles ==> r !in SeededRoles(team, ids);
  }

  lemma RoleOpsKeepSystem(db: Db, op: Op)
    requires Fresh(db, op) && (op.CreatesRole? || op.UpdatesRole? || op.DeletesRole?)
    ensures SameSystemRoles(db, Next(db, op)) && SamePersonalTeams(db, Next(db, op))
  {
    match op
    case CreatesRole(_, _, id, _, _, _) => assert id !in db.roles;
    case UpdatesRole(actor, team, id, name, permissions, rank) =>
      UpdatedSystemRole(db, actor, team, id, name, permissions, rank);
    case DeletesRole(_, _, _) =>
  }

  lemma UpdatedSystemRole(db: Db, actor: int, team: int, id: int, name: Option<string>,
                          permissions: Option<seq<string>>, rank: Option<int>)
    ensures
      var r := UpdateRole(db, actor, team, id, name, permissions, rank);
      r.Ok? ==>
        && id in db.roles && r.value.roles.Keys == db.roles.Keys && r.value.teams == db.teams
        && (forall x :: x in db.roles && x != id ==> r.value.roles[x] == db.roles[x])
        && r.value.roles[id].team == db.roles[id].team && r.value.roles[id].isSystem == db.roles[id].isSystem
        && (db.roles[id].isSystem ==>
             r.value.roles[id].name == db.roles[id].name && r.value.roles[id].rank == db.roles[id].rank)
  {
  }

  /** No operation renames, re-ranks or deletes a system role, or deletes a personal team. */
  lemma StepKeepsSystem(db: Db, op: Op)
    requires Fresh(db, op)
    ensures SameSystemRoles(db, Next(db, op)) && SamePersonalTeams(db, Next(db, op))
  {
    match op
    case CreatesTeam(owner, team, ids) => NewTeamKeepsRoles(db, team, owner, false, ids);
    case EnsuresTeam(user, team, ids) => NewTeamKeepsRoles(db, team, user, true, ids);
    case CreatesRole(_, _, _, _, _, _) => RoleOpsKeepSystem(db, op);
    case UpdatesRole(_, _, _, _, _, _) => RoleOpsKeepSystem(db, op);
    case DeletesRole(_, _, _) => RoleOpsKeepSystem(db, op);
    case DeletesTeam(_, _, _) => TeamGoneKeepsSystem(db, op);
    case _ => RolesAndTeamsStay(db, op);
  }

  lemma TeamGoneKeepsSystem(db: Db, op: Op)
    requires op.DeletesTeam?
    ensures SameSystemRoles(db, Next(db, op)) && SamePersonalTeams(db, Next(db, op))
  {
  }

  /** All other operations leave roles and teams alone. */
  lemma RolesAndTeamsStay(db: Db, op: Op)
    requires !op.CreatesTeam? && !op.EnsuresTeam? && !op.DeletesTeam?
    requires !op.CreatesRole? && !op.UpdatesRole? && !op.DeletesRole?
    ensures Next(db, op).roles == db.roles && Next(db, op).teams == db.teams
  {
  }

  lemma {:induction false} PersonalTeamsStay(db: Db, ops: seq<Op>)
    requires Legal(db, ops)
    ensures SamePersonalTeams(db, Run(db, ops))
    decreases |ops|
  {
    if ops != [] {
      StepKeepsSystem(db, ops[0]);
      PersonalTeamsStay(Next(db, ops[0]), ops[1..]);
    }
  }

  /** Every invite the token names was accepted or revoked. */
  predicate Spent(db: Db, token: string) {
    forall a :: a in db.invites && db.invites[a].token == token ==> !Pending(db.invites[a])
  }

  predicate Reissues(op: Op, token: string) {
    op.Invites? && op.token == token
  }

  lemma StepSpent(db: Db, op: Op, token: string)
    requires Spent(db, token) && !Reissues(op, token)
    ensures Spent(Next(db, op), token)
  {
  }

  lemma {:induction false} RunSpent(db: Db, ops: seq<Op>, token: string)
    requires Spent(db, token) && forall i :: 0 <= i < |ops| ==> !Reissues(ops[i], token)
    ensures Spent(Run(db, ops), token)
    decreases |ops|
  {
    if ops != [] {
      StepSpent(db, ops[0], token);
      RunSpent(Next(db, ops[0]), ops[1..], token);
    }
  }

  lemma SpentIsRefused(db: Db, user: int, token: string, now: int)
    requires Spent(db, token)
    ensures AcceptInvite(db, user, token, now).Err?
  {
  }

  lemma AcceptSpends(db: Db, user: int, token: string, now: int)
    requires TokensUnique(db) && AcceptInvite(db, user, token, now).Ok?
    ensures Spent(AcceptInvite(db, user, token, now).value, token)
  {
    var a := Named(db, token).value;
    assert forall b :: b in db.invites && db.invites[b].token == token ==> b == a;
  }

  /** An invite token admits at most once: whatever happens after it was accepted, as long as
      the same random token is not issued again, nobody can accept it a second time. */
  lemma TokenWorksOnce(db: Db, user: int, token: string, now: int, ops: seq<Op>, other: int, later: int)
    requires Inv(db) && AcceptInvite(db, user, token, now).Ok?
    requires forall i :: 0 <= i < |ops| ==> !Reissues(ops[i], token)
    ensures AcceptInvite(Run(AcceptInvite(db, user, token, now).value, ops), other, token, later).Err?
  {
    var after := AcceptInvite(db, user, token, now).value;
    AcceptSpends(db, user, token, now);
    RunSpent(after, ops, token);
    SpentIsRefused(Run(after, ops), other, token, later);
  }

  /** A revoked invite admits nobody either. */
  lemma RevokedTokenIsDead(db: Db, actor: int, a: Address, ops: seq<Op>, user: int, later: int)
    requires Inv(db) && RevokeInvite(db, actor, a).Ok?
    requires forall i :: 0 <= i < |ops| ==> !Reissues(ops[i], db.invites[a].token)
    ensures AcceptInvite(Run(RevokeInvite(db, actor, a).value, ops), user, db.invites[a].token, later).Err?
  {
    var after := RevokeInvite(db, actor, a).value;
    assert Spent(after, db.invites[a].token);
    RunSpent(after, ops, db.invites[a].token);
    SpentIsRefused(Run(after, ops), user, db.invites[a].token, later);
  }
}
