/** The team tables updated in place: each method does exactly what its operation says. */
module TeamStore {
  import opened Prelude
  import opened Teams
  import opened TeamInvariant

  /** The operation's outcome: refused with nothing changed, or done. */
  predicate Did(before: Db, after: Db, outcome: Result<Db, TeamError>, error: Option<TeamError>) {
    if outcome.Ok? then error.None? && after == outcome.value else error == Some(outcome.error) && after == before
  }

  class Store {
    var users: map<int, User>
    var teams: map<int, Team>
    var roles: map<int, Role>
    var members: map<Seat, int>
    var invites: map<Address, Invite>

    function Model(): Db
      reads this
    {
      Db(users, teams, roles, members, invites)
    }

    constructor ()
      ensures Model() == EMPTY && Inv(Model())
    {
      users, teams, roles, members, invites := map[], map[], map[], map[], map[];
    }

    // ---- Reads ----

    /** The caller's role in the team, refused without the permission. */
    method RequirePermission(actor: int, team: int, permission: string) returns (acting: Option<Role>)
      ensures acting == Acting(Model(), actor, team, permission)
    {
      var held := FindMember(Seat(team, actor));
      if held.None? || permission !in held.value.permissions {
        return None;
      }
      return held;
    }

    method FindMember(seat: Seat) returns (held: Option<Role>)
      ensures held == HeldRole(Model(), seat)
    {
      if seat in members && members[seat] in roles {
        return Some(roles[members[seat]]);
      }
      return None;
    }

    method FindRole(team: int, id: int) returns (role: Option<Role>)
      ensures role == RoleIn(Model(), team, id)
    {
      if id in roles && roles[id].team == team {
        return Some(roles[id]);
      }
      return None;
    }

    method EnsureNotLastOwner(team: int, held: Role) returns (last: bool)
      ensures last == IsLastOwner(Model(), team, held)
    {
      if held.name != OWNER {
        return false;
      }
      var owners := set m | m in members && m.team == team && members[m] in roles && roles[members[m]].name == OWNER;
      assert owners == Owners(Model(), team);
      return |owners| <= 1;
    }

    /** The unique index on invite tokens. */
    method FindInvite(token: string) returns (named: Option<Address>)
      requires TokensUnique(Model())
      ensures named == Named(Model(), token)
    {
      var found := set a | a in invites && invites[a].token == token;
      if found == {} {
        assert forall a :: a in invites ==> a !in found;
        return None;
      }
      var a :| a in found;
      return Some(a);
    }

    // ---- Row updates ----

    method SetActive(user: int, team: Option<int>)
      requires user in users
      modifies this`users
      ensures Model() == WithActive(old(Model()), user, team)
    {
      users := users[user := users[user].(active := team)];
    }

    method AddTeam(team: int, owner: int, isPersonal: bool, ids: Ids)
      modifies this`teams, this`roles, this`members
      ensures Model() == WithTeam(old(Model()), team, owner, isPersonal, ids)
    {
      teams := teams[team := Team(isPersonal, owner, ids.owner)];
      roles := roles + SeededRoles(team, ids);
      members := members[Seat(team, owner) := ids.owner];
    }

    method DropSeat(seat: Seat)
      modifies this`members, this`users
      ensures Model() == WithoutSeat(old(Model()), seat)
    {
      members := members - {seat};
      if seat.user in users && users[seat.user].active == Some(seat.team) {
        users := users[seat.user := users[seat.user].(active := None)];
      }
      assert users == WithoutSeat(old(Model()), seat).users;
    }

    // ---- Operations ----

    method Register(id: int, email: string) returns (error: Option<TeamError>)
      modifies this
      ensures Did(old(Model()), Model(), Teams.Register(old(Model()), id, email), error)
    {
      if exists u :: u in users && users[u].email == Normalise(email) {
        return Some(EmailTaken);
      }
      users := users[id := User(Normalise(email), None)];
      return None;
    }

    method CreateTeam(owner: int, team: int, isPersonal: bool, ids: Ids) returns (error: Option<TeamError>)
      modifies this
      ensures Did(old(Model()), Model(), Teams.CreateTeam(old(Model()), owner, team, isPersonal, ids), error)
    {
      if owner !in users {
        return Some(UserNotFound);
      }
      AddTeam(team, owner, isPersonal, ids);
      return None;
    }

    method EnsurePersonalTeam(user: int, team: int, ids: Ids) returns (error: Option<TeamError>)
      modifies this
      ensures Did(old(Model()), Model(), Teams.EnsurePersonalTeam(old(Model()), user, team, ids), error)
    {
      if exists m :: m in members && m.user == user {
        return None;
      }
      if user !in users {
        return Some(UserNotFound);
      }
      AddTeam(team, user, true, ids);
      SetActive(user, Some(team));
      return None;
    }

    method CreateRole(actor: int, team: int, id: int, name: string, permissions: seq<string>, rank: int)
      returns (error: Option<TeamError>)
      modifies this
      ensures Did(old(Model()), Model(),
                  Teams.CreateRole(old(Model()), actor, team, id, name, permissions, rank), error)
    {
      var acting := RequirePermission(actor, team, MANAGE_ROLES);
      if acting.None? { return Some(Forbidden); }
      if !(1 <= rank <= 99) { return Some(InvalidRank); }
      if rank >= acting.value.rank { return Some(RankTooHigh); }
      if !(Elems(permissions) <= PERMISSIONS) { return Some(UnknownPermission); }
      var trimmed := Trim(name);
      if trimmed == "" { return Some(NameRequired); }
      if exists r :: r in roles && roles[r].team == team && roles[r].name == trimmed {
        return Some(NameTaken);
      }
      roles := roles[id := Role(team, trimmed, Elems(permissions), rank, false)];
      return None;
    }

    method UpdateRole(actor: int, team: int, id: int, name: Option<string>, permissions: Option<seq<string>>,
                      rank: Option<int>)
      returns (error: Option<TeamError>)
      modifies this
      ensures Did(old(Model()), Model(),
                  Teams.UpdateRole(old(Model()), actor, team, id, name, permissions, rank), error)
    {
      var acting := RequirePermission(actor, team, MANAGE_ROLES);
      if acting.None? { return Some(Forbidden); }
      var target := FindRole(team, id);
      if target.None? { return Some(RoleNotFound); }
      var role := target.value;
      if role.rank >= acting.value.rank { return Some(RoleTooSenior); }
      if rank.Some? && rank.value >= acting.value.rank { return Some(RankTooHigh); }
      var renamed := name.Some? && name.value != "";
      if role.isSystem && (renamed || rank.Some?) { return Some(SystemRole); }
      if role.name == OWNER && permissions.Some? { return Some(OwnerPermissions); }
      if permissions.Some? && !(Elems(permissions.value) <= PERMISSIONS) { return Some(UnknownPermission); }
      if renamed && Trim(name.value) != role.name
         && exists r :: r in roles && roles[r].team == team && roles[r].name == Trim(name.value) {
        return Some(NameTaken);
      }
      if renamed {
        role := role.(name := Trim(name.value));
      }
      if permissions.Some? {
        role := role.(permissions := Elems(permissions.value));
      }
      if rank.Some? {
        role := role.(rank := rank.value);
      }
      roles := roles[id := role];
      return None;
    }

    method DeleteRole(actor: int, team: int, id: int) returns (error: Option<TeamError>)
      modifies this
      ensures Did(old(Model()), Model(), Teams.DeleteRole(old(Model()), actor, team, id), error)
    {
      var acting := RequirePermission(actor, team, MANAGE_ROLES);
      if acting.None? { return Some(Forbidden); }
      var role := FindRole(team, id);
      if role.None? { return Some(RoleNotFound); }
      if role.value.rank >= acting.value.rank { return Some(RoleTooSenior); }
      if role.value.isSystem { return Some(SystemRole); }
      if exists m :: m in members && members[m] == id { return Some(RoleInUse); }
      invites := map a | a in invites && invites[a].roleId != id :: invites[a];
      roles := roles - {id};
      return None;
    }

    method ChangeMemberRole(actor: int, team: int, user: int, roleId: int) returns (error: Option<TeamError>)
      modifies this
      ensures Did(old(Model()), Model(), Teams.ChangeMemberRole(old(Model()), actor, team, user, roleId), error)
    {
      var acting := RequirePermission(actor, team, MANAGE_MEMBERS);
      if acting.None? { return Some(Forbidden); }
      var held := FindMember(Seat(team, user));
      if held.None? { return Some(MemberNotFound); }
      var role := FindRole(team, roleId);
      if role.None? { return Some(RoleNotFound); }
      if held.value.rank >= acting.value.rank { return Some(MemberTooSenior); }
      if role.value.rank >= acting.value.rank { return Some(RoleTooSenior); }
      if user == actor { return Some(OwnSeat); }
      var last := EnsureNotLastOwner(team, held.value);
      if last { return Some(LastOwner); }
      members := members[Seat(team, user) := roleId];
      return None;
    }

    method RemoveMember(actor: int, team: int, user: int) returns (error: Option<TeamError>)
      modifies this
      ensures Did(old(Model()), Model(), Teams.RemoveMember(old(Model()), actor, team, user), error)
    {
      var acting := RequirePermission(actor, team, MANAGE_MEMBERS);
      if acting.None? { return Some(Forbidden); }
      var held := FindMember(Seat(team, user));
      if held.None? { return Some(MemberNotFound); }
      if held.value.rank >= acting.value.rank && user != actor { return Some(MemberTooSenior); }
      var last := EnsureNotLastOwner(team, held.value);
      if last { return Some(LastOwner); }
      DropSeat(Seat(team, user));
      return None;
    }

    method InviteMember(actor: int, team: int, email: string, roleId: int, token: string, now: int)
      returns (error: Option<TeamError>)
      modifies this
      ensures Did(old(Model()), Model(),
                  Teams.InviteMember(old(Model()), actor, team, email, roleId, token, now), error)
    {
      var acting := RequirePermission(actor, team, MANAGE_MEMBERS);
      if acting.None? { return Some(Forbidden); }
      var role := FindRole(team, roleId);
      if role.None? { return Some(RoleNotFound); }
      if role.value.rank >= acting.value.rank { return Some(RoleTooSenior); }
      var address := Address(team, Normalise(email));
      if exists u :: u in users && users[u].email == address.email && Seat(team, u) in members {
        return Some(AlreadyMember);
      }
      invites := invites[address := Invite(roleId, token, now + INVITE_MS, false, false)];
      return None;
    }

    method RevokeInvite(actor: int, address: Address) returns (error: Option<TeamError>)
      modifies this
      ensures Did(old(Model()), Model(), Teams.RevokeInvite(old(Model()), actor, address), error)
    {
      var acting := RequirePermission(actor, address.team, MANAGE_MEMBERS);
      if acting.None? { return Some(Forbidden); }
      if address !in invites { return Some(InviteNotFound); }
      invites := invites[address := invites[address].(revoked := true)];
      return None;
    }

    method AcceptInvite(user: int, token: string, now: int) returns (error: Option<TeamError>)
      requires TokensUnique(Model())
      modifies this
      ensures Did(old(Model()), Model(), Teams.AcceptInvite(old(Model()), user, token, now), error)
    {
      var named := FindInvite(token);
      if named.None? || named.value !in invites { return Some(InviteNotFound); }
      var a := named.value;
      var invite := invites[a];
      if invite.revoked { return Some(InviteRevoked); }
      if invite.accepted { return Some(InviteUsed); }
      if invite.expiresAt < now { return Some(InviteExpired); }
      if user !in users { return Some(UserNotFound); }
      if Lower(users[user].email) != a.email { return Some(WrongAddress); }
      members := members[Seat(a.team, user) := invite.roleId];
      invites := invites[a := invite.(accepted := true)];
      SetActive(user, Some(a.team));
      return None;
    }

    method LeaveTeam(user: int, team: int) returns (error: Option<TeamError>)
      modifies this
      ensures Did(old(Model()), Model(), Teams.LeaveTeam(old(Model()), user, team), error)
    {
      var held := FindMember(Seat(team, user));
      if held.None? || team !in teams { return Some(NotAMember); }
      if teams[team].isPersonal { return Some(PersonalTeam); }
      var last := EnsureNotLastOwner(team, held.value);
      if last { return Some(LastOwner); }
      DropSeat(Seat(team, user));
      return None;
    }

    method DeleteTeam(actor: int, team: int, brokerOk: bool) returns (error: Option<TeamError>)
      modifies this
      ensures Did(old(Model()), Model(), Teams.DeleteTeam(old(Model()), actor, team, brokerOk), error)
    {
      var acting := RequirePermission(actor, team, MANAGE_SETTINGS);
      if acting.None? || team !in teams { return Some(Forbidden); }
      if teams[team].isPersonal { return Some(PersonalTeam); }
      if !brokerOk { return Some(BrokerFailed); }
      users := map u | u in users :: if users[u].active == Some(team) then users[u].(active := None) else users[u];
      teams := teams - {team};
      roles := map r | r in roles && roles[r].team != team :: roles[r];
      members := map m | m in members && m.team != team :: members[m];
      invites := map a | a in invites && a.team != team :: invites[a];
      return None;
    }

    method SwitchActiveTeam(user: int, team: int) returns (error: Option<TeamError>)
      modifies this
      ensures Did(old(Model()), Model(), Teams.SwitchActiveTeam(old(Model()), user, team), error)
    {
      if Seat(team, user) !in members { return Some(NotAMember); }
      if user !in users { return Some(UserNotFound); }
      SetActive(user, Some(team));
      return None;
    }

    /** Any operation: the store takes the model's step and keeps the invariant. */
    method Perform(op: Op) returns (error: Option<TeamError>)
      requires Inv(Model()) && Fresh(Model(), op)
      modifies this
      ensures Model() == Next(old(Model()), op) && Inv(Model())
      ensures error.None? <==> Apply(old(Model()), op).Ok?
    {
      StepInv(Model(), op);
      match op
      case Registers(id, email) => error := Register(id, email);
      case CreatesTeam(owner, team, ids) => error := CreateTeam(owner, team, false, ids);
      case EnsuresTeam(user, team, ids) => error := EnsurePersonalTeam(user, team, ids);
      case CreatesRole(actor, team, id, name, permissions, rank) =>
        error := CreateRole(actor, team, id, name, permissions, rank);
      case UpdatesRole(actor, team, id, name, permissions, rank) =>
        error := UpdateRole(actor, team, id, name, permissions, rank);
      case DeletesRole(actor, team, id) => error := DeleteRole(actor, team, id);
      case ChangesRole(actor, team, user, id) => error := ChangeMemberRole(actor, team, user, id);
      case Removes(actor, team, user) => error := RemoveMember(actor, team, user);
      case Invites(actor, team, email, id, token, now) => error := InviteMember(actor, team, email, id, token, now);
      case Revokes(actor, team, email) => error := RevokeInvite(actor, Address(team, email));
      case Accepts(user, token, now) => error := AcceptInvite(user, token, now);
      case Leaves(user, team) => error := LeaveTeam(user, team);
      case DeletesTeam(actor, team, brokerOk) => error := DeleteTeam(actor, team, brokerOk);
      case Switches(user, team) => error := SwitchActiveTeam(user, team);
    }
  }
}
