/** How far rank reaches: what members below a rank can never change, over whole runs. */
module TeamRank {
  import opened Prelude
  import opened Teams
  import opened TeamInvariant

  predicate IsSenior(db: Db, team: int, rank: int, r: int) {
    r in db.roles && db.roles[r].team == team && db.roles[r].rank >= rank
  }

  /** The roles of a team at or above a rank, and who holds them. */
  function SeniorRoles(db: Db, team: int, rank: int): map<int, Role> {
    map r | r in db.roles && IsSenior(db, team, rank, r) :: db.roles[r]
  }

  function SeniorSeats(db: Db, team: int, rank: int): map<Seat, int> {
    map m | m in db.members && m.team == team && IsSenior(db, team, rank, db.members[m]) :: db.members[m]
  }

  predicate NoSeniorInvite(db: Db, team: int, rank: int) {
    forall a :: a in db.invites && a.team == team && Pending(db.invites[a]) ==>
      !IsSenior(db, team, rank, db.invites[a].roleId)
  }

  /** The top of the team is as it was: same senior roles with the same content, same holders. */
  predicate Frozen(db: Db, after: Db, team: int, rank: int) {
    && team in after.teams
    && SeniorRoles(after, team, rank) == SeniorRoles(db, team, rank)
    && SeniorSeats(after, team, rank) == SeniorSeats(db, team, rank)
    && NoSeniorInvite(after, team, rank)
  }

  /** Whoever acts in the team holds a role below the rank, and the team is not deleted. */
  predicate Junior(db: Db, op: Op, team: int, rank: int) {
    match op
    case CreatesRole(actor, t, _, _, _, _) => t == team ==> Below(db, team, actor, rank)
    case UpdatesRole(actor, t, _, _, _, _) => t == team ==> Below(db, team, actor, rank)
    case DeletesRole(actor, t, _) => t == team ==> Below(db, team, actor, rank)
    case ChangesRole(actor, t, _, _) => t == team ==> Below(db, team, actor, rank)
    case Removes(actor, t, _) => t == team ==> Below(db, team, actor, rank)
    case Invites(actor, t, _, _, _, _) => t == team ==> Below(db, team, actor, rank)
    case Revokes(actor, t, _) => t == team ==> Below(db, team, actor, rank)
    case Leaves(user, t) => t == team ==> Below(db, team, user, rank)
    case DeletesTeam(_, t, _) => t != team
    case _ => true
  }

  predicate Below(db: Db, team: int, actor: int, rank: int) {
    HeldRole(db, Seat(team, actor)).Some? ==> HeldRole(db, Seat(team, actor)).value.rank < rank
  }

  /** Rewriting a role that is and stays junior, or belongs elsewhere. */
  lemma RoleFreezes(db: Db, id: int, role: Role, team: int, rank: int)
    requires team in db.teams && NoSeniorInvite(db, team, rank)
    requires !IsSenior(db, team, rank, id) && (role.team == team ==> role.rank < rank)
    ensures Frozen(db, WithRole(db, id, role), team, rank)
  {
    var after := WithRole(db, id, role);
    assert forall r :: IsSenior(after, team, rank, r) <==> IsSenior(db, team, rank, r);
  }

  lemma RoleGoneFreezes(db: Db, id: int, team: int, rank: int)
    requires team in db.teams && NoSeniorInvite(db, team, rank) && !IsSenior(db, team, rank, id)
    ensures Frozen(db, WithoutRole(db, id), team, rank)
  {
    var after := WithoutRole(db, id);
    assert forall r :: IsSenior(after, team, rank, r) <==> IsSenior(db, team, rank, r);
  }

  /** Giving a seat a junior role, when it held none above. */
  lemma SeatFreezes(db: Db, seat: Seat, roleId: int, team: int, rank: int)
    requires team in db.teams && NoSeniorInvite(db, team, rank)
    requires seat.team == team ==> seat !in SeniorSeats(db, team, rank) && !IsSenior(db, team, rank, roleId)
    ensures Frozen(db, WithSeat(db, seat, roleId), team, rank)
  {
    var after := WithSeat(db, seat, roleId);
    assert forall r :: IsSenior(after, team, rank, r) <==> IsSenior(db, team, rank, r);
  }

  lemma SeatGoneFreezes(db: Db, seat: Seat, team: int, rank: int)
    requires team in db.teams && NoSeniorInvite(db, team, rank) && seat !in SeniorSeats(db, team, rank)
    ensures Frozen(db, WithoutSeat(db, seat), team, rank)
  {
    var after := WithoutSeat(db, seat);
    assert forall r :: IsSenior(after, team, rank, r) <==> IsSenior(db, team, rank, r);
  }

  lemma InviteFreezes(db: Db, a: Address, i: Invite, team: int, rank: int)
    requires team in db.teams && NoSeniorInvite(db, team, rank)
    requires a.team == team && Pending(i) ==> !IsSenior(db, team, rank, i.roleId)
    ensures Frozen(db, WithInvite(db, a, i), team, rank)
  {
    var after := WithInvite(db, a, i);
    assert forall r :: IsSenior(after, team, rank, r) <==> IsSenior(db, team, rank, r);
  }

  lemma UsersFreeze(db: Db, after: Db, team: int, rank: int)
    requires team in db.teams && NoSeniorInvite(db, team, rank)
    requires after.teams == db.teams && after.roles == db.roles && after.members == db.members
    requires after.invites == db.invites
    ensures Frozen(db, after, team, rank)
  {
    assert forall r :: IsSenior(after, team, rank, r) <==> IsSenior(db, team, rank, r);
  }

  /** Creating another team. */
  lemma NewTeamFreezes(db: Db, other: int, owner: int, isPersonal: bool, ids: Ids, team: int, rank: int)
    requires InvitesOk(db) && team in db.teams && NoSeniorInvite(db, team, rank) && FreshTeam(db, other, ids)
    ensures Frozen(db, WithTeam(db, other, owner, isPersonal, ids), team, rank)
  {
    var after := WithTeam(db, other, owner, isPersonal, ids);
    forall r ensures IsSenior(after, team, rank, r) <==> IsSenior(db, team, rank, r) {
      NewRolesElsewhere(db, other, owner, isPersonal, ids, r);
    }
    assert SeniorSeats(after, team, rank) == SeniorSeats(db, team, rank);
  }

  lemma NewRolesElsewhere(db: Db, other: int, owner: int, isPersonal: bool, ids: Ids, r: int)
    requires FreshTeam(db, other, ids)
    ensures
      var after := WithTeam(db, other, owner, isPersonal, ids);
      && (r in db.roles ==> r in after.roles && after.roles[r] == db.roles[r])
      && (r in after.roles && r !in db.roles ==> after.roles[r].team == other)
  {
    SeededRolesFit(other, owner, isPersonal, ids);
  }

  lemma OtherTeamGoneFreezes(db: Db, other: int, team: int, rank: int)
    requires team in db.teams && NoSeniorInvite(db, team, rank) && other != team
    ensures Frozen(db, WithoutTeam(db, other), team, rank)
  {
    var after := WithoutTeam(db, other);
    assert forall r :: IsSenior(after, team, rank, r) <==> IsSenior(db, team, rank, r);
  }

  lemma HolderSeat(db: Db, seat: Seat, team: int, rank: int)
    requires Inv(db) && HeldRole(db, seat).Some? && (seat.team == team ==> HeldRole(db, seat).value.rank < rank)
    ensures seat !in SeniorSeats(db, team, rank)
  {
  }

  lemma CreateRoleFreezes(db: Db, actor: int, t: int, id: int, name: string, permissions: seq<string>, r: int,
                          team: int, rank: int)
    requires team in db.teams && NoSeniorInvite(db, team, rank) && id !in db.roles
    requires t == team ==> Below(db, team, actor, rank)
    requires CreateRole(db, actor, t, id, name, permissions, r).Ok?
    ensures Frozen(db, CreateRole(db, actor, t, id, name, permissions, r).value, team, rank)
  {
    RoleFreezes(db, id, Role(t, Trim(name), Elems(permissions), r, false), team, rank);
  }

  lemma UpdateRoleFreezes(db: Db, actor: int, t: int, id: int, name: Option<string>, permissions: Option<seq<string>>,
                          r: Option<int>, team: int, rank: int)
    requires team in db.teams && NoSeniorInvite(db, team, rank) && (t == team ==> Below(db, team, actor, rank))
    requires UpdateRole(db, actor, t, id, name, permissions, r).Ok?
    ensures Frozen(db, UpdateRole(db, actor, t, id, name, permissions, r).value, team, rank)
  {
    RoleFreezes(db, id, UpdateRole(db, actor, t, id, name, permissions, r).value.roles[id], team, rank);
  }

  lemma DeleteRoleFreezes(db: Db, actor: int, t: int, id: int, team: int, rank: int)
    requires team in db.teams && NoSeniorInvite(db, team, rank) && (t == team ==> Below(db, team, actor, rank))
    requires DeleteRole(db, actor, t, id).Ok?
    ensures Frozen(db, DeleteRole(db, actor, t, id).value, team, rank)
  {
    RoleGoneFreezes(db, id, team, rank);
  }

  lemma ChangeMemberRoleFreezes(db: Db, actor: int, t: int, user: int, id: int, team: int, rank: int)
    requires Inv(db) && team in db.teams && NoSeniorInvite(db, team, rank)
    requires t == team ==> Below(db, team, actor, rank)
    requires ChangeMemberRole(db, actor, t, user, id).Ok?
    ensures Frozen(db, ChangeMemberRole(db, actor, t, user, id).value, team, rank)
  {
    HolderSeat(db, Seat(t, user), team, rank);
    SeatFreezes(db, Seat(t, user), id, team, rank);
  }

  lemma RemoveMemberFreezes(db: Db, actor: int, t: int, user: int, team: int, rank: int)
    requires Inv(db) && team in db.teams && NoSeniorInvite(db, team, rank)
    requires t == team ==> Below(db, team, actor, rank)
    requires RemoveMember(db, actor, t, user).Ok?
    ensures Frozen(db, RemoveMember(db, actor, t, user).value, team, rank)
  {
    HolderSeat(db, Seat(t, user), team, rank);
    SeatGoneFreezes(db, Seat(t, user), team, rank);
  }

  lemma LeaveTeamFreezes(db: Db, user: int, t: int, team: int, rank: int)
    requires Inv(db) && team in db.teams && NoSeniorInvite(db, team, rank)
    requires t == team ==> Below(db, team, user, rank)
    requires LeaveTeam(db, user, t).Ok?
    ensures Frozen(db, LeaveTeam(db, user, t).value, team, rank)
  {
    HolderSeat(db, Seat(t, user), team, rank);
    SeatGoneFreezes(db, Seat(t, user), team, rank);
  }

  lemma InviteMemberFreezes(db: Db, actor: int, t: int, email: string, id: int, token: string, now: int, team: int,
                            rank: int)
    requires team in db.teams && NoSeniorInvite(db, team, rank) && (t == team ==> Below(db, team, actor, rank))
    requires InviteMember(db, actor, t, email, id, token, now).Ok?
    ensures Frozen(db, InviteMember(db, actor, t, email, id, token, now).value, team, rank)
  {
    InviteFreezes(db, Address(t, Normalise(email)), Invite(id, token, now + INVITE_MS, false, false), team, rank);
  }

  lemma RevokeInviteFreezes(db: Db, actor: int, a: Address, team: int, rank: int)
    requires team in db.teams && NoSeniorInvite(db, team, rank) && RevokeInvite(db, actor, a).Ok?
    ensures Frozen(db, RevokeInvite(db, actor, a).value, team, rank)
  {
    InviteFreezes(db, a, db.invites[a].(revoked := true), team, rank);
  }

  lemma AcceptFreezes(db: Db, user: int, named: Option<Address>, now: int, team: int, rank: int)
    requires Inv(db) && team in db.teams && NoSeniorInvite(db, team, rank) && Accept(db, user, named, now).Ok?
    ensures Frozen(db, Accept(db, user, named, now).value, team, rank)
  {
    AcceptIsAlwaysNew(db, user, named, now);
    var a := named.value;
    var i := db.invites[a];
    InviteFreezes(db, a, i.(accepted := true), team, rank);
    var used := WithInvite(db, a, i.(accepted := true));
    SeatFreezes(used, Seat(a.team, user), i.roleId, team, rank);
    var joined := WithSeat(used, Seat(a.team, user), i.roleId);
    UsersFreeze(joined, WithActive(joined, user, Some(a.team)), team, rank);
  }

  lemma EnsurePersonalTeamFreezes(db: Db, user: int, t: int, ids: Ids, team: int, rank: int)
    requires InvitesOk(db) && team in db.teams && NoSeniorInvite(db, team, rank) && FreshTeam(db, t, ids)
    requires EnsurePersonalTeam(db, user, t, ids).Ok?
    ensures Frozen(db, EnsurePersonalTeam(db, user, t, ids).value, team, rank)
  {
    if HasTeam(db, user) {
      UsersFreeze(db, db, team, rank);
    } else {
      NewTeamFreezes(db, t, user, true, ids, team, rank);
      var seeded := WithTeam(db, t, user, true, ids);
      UsersFreeze(seeded, WithActive(seeded, user, Some(t)), team, rank);
    }
  }

  /** The operations guarded by the actor's rank. */
  predicate Ranked(op: Op) {
    op.CreatesRole? || op.UpdatesRole? || op.DeletesRole? || op.ChangesRole? || op.Removes? || op.Invites?
  }

  lemma RankedFreezes(db: Db, op: Op, team: int, rank: int)
    requires Inv(db) && team in db.teams && NoSeniorInvite(db, team, rank) && Fresh(db, op)
    requires Junior(db, op, team, rank)
    requires Ranked(op) && Apply(db, op).Ok?
    ensures Frozen(db, Apply(db, op).value, team, rank)
  {
    match op
    case CreatesRole(actor, t, id, name, permissions, r) =>
      CreateRoleFreezes(db, actor, t, id, name, permissions, r, team, rank);
    case UpdatesRole(actor, t, id, name, permissions, r) =>
      UpdateRoleFreezes(db, actor, t, id, name, permissions, r, team, rank);
    case DeletesRole(actor, t, id) => DeleteRoleFreezes(db, actor, t, id, team, rank);
    case ChangesRole(actor, t, user, id) => ChangeMemberRoleFreezes(db, actor, t, user, id, team, rank);
    case Removes(actor, t, user) => RemoveMemberFreezes(db, actor, t, user, team, rank);
    case Invites(actor, t, email, id, token, now) =>
      InviteMemberFreezes(db, actor, t, email, id, token, now, team, rank);
  }

  lemma UnrankedFreezes(db: Db, op: Op, team: int, rank: int)
    requires Inv(db) && team in db.teams && NoSeniorInvite(db, team, rank) && Fresh(db, op)
    requires Junior(db, op, team, rank)
    requires !Ranked(op) && Apply(db, op).Ok?
    ensures Frozen(db, Apply(db, op).value, team, rank)
  {
    match op
    case Registers(id, email) => UsersFreeze(db, Apply(db, op).value, team, rank);
    case CreatesTeam(owner, t, ids) => NewTeamFreezes(db, t, owner, false, ids, team, rank);
    case EnsuresTeam(user, t, ids) => EnsurePersonalTeamFreezes(db, user, t, ids, team, rank);
    case Revokes(actor, t, email) => RevokeInviteFreezes(db, actor, Address(t, email), team, rank);
    case Accepts(user, token, now) => AcceptFreezes(db, user, Named(db, token), now, team, rank);
    case Leaves(user, t) => LeaveTeamFreezes(db, user, t, team, rank);
    case DeletesTeam(actor, t, brokerOk) => OtherTeamGoneFreezes(db, t, team, rank);
    case Switches(user, t) => UsersFreeze(db, Apply(db, op).value, team, rank);
  }

  lemma StepFrozen(db: Db, op: Op, team: int, rank: int)
    requires Inv(db) && team in db.teams && NoSeniorInvite(db, team, rank) && Fresh(db, op)
    requires Junior(db, op, team, rank)
    ensures Frozen(db, Next(db, op), team, rank)
  {
    if Apply(db, op).Err? {
      UsersFreeze(db, db, team, rank);
    } else if Ranked(op) {
      RankedFreezes(db, op, team, rank);
    } else {
      UnrankedFreezes(db, op, team, rank);
    }
  }

  ghost predicate AllJunior(db: Db, ops: seq<Op>, team: int, rank: int)
    decreases |ops|
  {
    ops == [] || (Junior(db, ops[0], team, rank) && AllJunior(Next(db, ops[0]), ops[1..], team, rank))
  }

  /** However long members below a rank act, and whoever joins meanwhile, nobody gains or loses
      a role at or above it, and no such role is edited, deleted or created. */
  lemma {:induction false} SeniorsFrozen(db: Db, ops: seq<Op>, team: int, rank: int)
    requires Inv(db) && Legal(db, ops) && team in db.teams && NoSeniorInvite(db, team, rank)
    requires AllJunior(db, ops, team, rank)
    ensures Frozen(db, Run(db, ops), team, rank)
    decreases |ops|
  {
    if ops != [] {
      StepInv(db, ops[0]);
      StepFrozen(db, ops[0], team, rank);
      SeniorsFrozen(Next(db, ops[0]), ops[1..], team, rank);
    }
  }
}
