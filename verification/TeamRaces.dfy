/** Team operations under concurrency: each is one block of reads and checks and, later, its
    writes, and any number of them overlap. What the checks saw may be stale when a write lands;
    only the database's own constraints are checked then. */
module TeamRaces {
  import opened Prelude
  import opened Teams
  import opened TeamInvariant
  import opened TeamRank

  // ---- The write an operation has decided on ----

  datatype Write =
    | PutUser(email: string)
    | PutTeam(owner: int, isPersonal: bool, activate: bool)
    | PutRole(role: Role)
    | SetRole(id: int, team: int, name: Option<string>, permissions: Option<set<string>>, rank: Option<int>)
    | DropRole(id: int, team: int)
    | SetSeat(seat: Seat, roleId: int)
    | DropSeat(seat: Seat)
    | ClearActive(user: int, team: int)
    | PutInvite(at: Address, invite: Invite)
    | Revoke(at: Address)
    | Join(at: Address, user: int, roleId: int)
    | Detach(team: int)
    | DropTeam(team: int)
    | SetActive(user: int, team: int)
    | Nothing

  /** What an operation whose checks passed on db is going to write. */
  ghost function Plan(db: Db, op: Op): Write
    requires Apply(db, op).Ok?
  {
    match op
    case Registers(_, email) => PutUser(Normalise(email))
    case CreatesTeam(owner, _, _) => PutTeam(owner, false, false)
    case EnsuresTeam(user, _, _) => if HasTeam(db, user) then Nothing else PutTeam(user, true, true)
    case CreatesRole(_, team, _, name, permissions, rank) =>
      PutRole(Role(team, Trim(name), Elems(permissions), rank, false))
    case UpdatesRole(_, team, id, name, permissions, rank) =>
      SetRole(id, team,
              if name.Some? && name.value != "" then Some(Trim(name.value)) else None,
              if permissions.Some? then Some(Elems(permissions.value)) else None, rank)
    case DeletesRole(_, team, id) => DropRole(id, team)
    case ChangesRole(_, team, user, id) => SetSeat(Seat(team, user), id)
    case Removes(_, team, user) => DropSeat(Seat(team, user))
    case Invites(_, team, email, id, token, now) =>
      PutInvite(Address(team, Normalise(email)), Invite(id, token, now + INVITE_MS, false, false))
    case Revokes(_, team, email) => Revoke(Address(team, email))
    case Accepts(user, token, _) => Join(Named(db, token).value, user, db.invites[Named(db, token).value].roleId)
    case Leaves(user, team) => DropSeat(Seat(team, user))
    case DeletesTeam(_, team, _) => Detach(team)
    case Switches(user, team) => SetActive(user, team)
  }

  /** A removal clears the active team in a statement of its own, and deleting a team detaches
      its users first. */
  function Follow(x: Write): seq<Write> {
    match x
    case DropSeat(seat) => [ClearActive(seat.user, seat.team)]
    case Detach(team) => [DropTeam(team)]
    case _ => []
  }

  /** Ids the database gives out when a row is created. */
  datatype Minted = Minted(id: int, ids: Ids)

  /** The database accepts the write: rows it updates exist, foreign keys hold, names, emails and
      tokens stay unique. */
  predicate Admits(db: Db, x: Write, m: Minted) {
    match x
    case PutUser(email) => m.id !in db.users && !HasEmail(db, email)
    case PutTeam(owner, _, _) => owner in db.users && FreshTeam(db, m.id, m.ids)
    case PutRole(role) => role.team in db.teams && m.id !in db.roles && !NameUsed(db, role.team, role.name)
    case SetRole(id, team, name, _, _) =>
      RoleIn(db, team, id).Some? && (name.Some? && name.value != db.roles[id].name ==> !NameUsed(db, team, name.value))
    case DropRole(id, team) => RoleIn(db, team, id).Some? && !InUse(db, id)
    case SetSeat(seat, roleId) => seat in db.members && roleId in db.roles
    case DropSeat(seat) => seat in db.members
    case PutInvite(a, i) =>
      a.team in db.teams && i.roleId in db.roles
      && forall b :: b in db.invites && b != a ==> db.invites[b].token != i.token
    case Revoke(a) => a in db.invites
    case Join(a, user, roleId) => a in db.invites && a.team in db.teams && roleId in db.roles && user in db.users
    case DropTeam(team) => team in db.teams
    case SetActive(user, team) => user in db.users && team in db.teams
    case _ => true
  }

  function Written(db: Db, x: Write, m: Minted): Db
    requires Admits(db, x, m)
  {
    match x
    case PutUser(email) => WithUser(db, m.id, email)
    case PutTeam(owner, isPersonal, activate) =>
      var after := WithTeam(db, m.id, owner, isPersonal, m.ids);
      if activate then WithActive(after, owner, Some(m.id)) else after
    case PutRole(role) => WithRole(db, m.id, role)
    case SetRole(id, team, name, permissions, rank) => WithRole(db, id, Rewritten(db.roles[id], x))
    case DropRole(id, _) => WithoutRole(db, id)
    case SetSeat(seat, roleId) => WithSeat(db, seat, roleId)
    case DropSeat(seat) => db.(members := db.members - {seat})
    case ClearActive(user, team) => WithoutActive(db, u => u == user, team)
    case PutInvite(a, i) => WithInvite(db, a, i)
    case Revoke(a) => WithInvite(db, a, db.invites[a].(revoked := true))
    case Join(a, user, roleId) => Joined(db, a, user, roleId)
    case Detach(team) => WithoutActive(db, _ => true, team)
    case DropTeam(team) => WithoutTeam(db, team)
    case SetActive(user, team) => WithActive(db, user, Some(team))
    case Nothing => db
  }

  function WithoutActive(db: Db, whom: int -> bool, team: int): Db {
    db.(users := map u | u in db.users ::
          if whom(u) && db.users[u].active == Some(team) then db.users[u].(active := None) else db.users[u])
  }

  function Rewritten(role: Role, x: Write): Role
    requires x.SetRole?
  {
    Role(role.team, if x.name.Some? then x.name.value else role.name,
         if x.permissions.Some? then x.permissions.value else role.permissions,
         if x.rank.Some? then x.rank.value else role.rank, role.isSystem)
  }

  /** The transaction of acceptInvite: it does not look again at what was checked. */
  function Joined(db: Db, a: Address, user: int, roleId: int): Db
    requires a in db.invites && user in db.users
  {
    var used := WithInvite(db, a, db.invites[a].(accepted := true));
    WithActive(WithSeat(used, Seat(a.team, user), roleId), user, Some(a.team))
  }

  // ---- Interleavings ----

  datatype Races = Races(db: Db, writes: seq<Write>)

  datatype Step = Begin(op: Op) | Commit(i: nat, m: Minted)

  /** The team and the roles a write refers to. */
  function TeamsOf(x: Write): set<int> {
    match x
    case PutRole(role) => {role.team}
    case SetRole(_, team, _, _, _) => {team}
    case DropRole(_, team) => {team}
    case SetSeat(seat, _) => {seat.team}
    case DropSeat(seat) => {seat.team}
    case PutInvite(a, _) => {a.team}
    case Revoke(a) => {a.team}
    case Join(a, _, _) => {a.team}
    case ClearActive(_, team) => {team}
    case Detach(team) => {team}
    case DropTeam(team) => {team}
    case SetActive(_, team) => {team}
    case _ => {}
  }

  function RolesOf(x: Write): set<int> {
    match x
    case SetRole(id, _, _, _, _) => {id}
    case DropRole(id, _) => {id}
    case SetSeat(_, roleId) => {roleId}
    case PutInvite(_, i) => {i.roleId}
    case Join(_, _, roleId) => {roleId}
    case _ => {}
  }

  /** Given-out ids are new also for writes still to come: ids are never used twice. */
  predicate NewFor(x: Write, y: Write, m: Minted) {
    && (x.PutTeam? ==> m.id !in TeamsOf(y) && {m.ids.owner, m.ids.admin, m.ids.operator, m.ids.viewer} !! RolesOf(y))
    && (x.PutRole? ==> m.id !in RolesOf(y))
  }

  ghost predicate CanStep(r: Races, t: Step) {
    match t
    case Begin(op) => Apply(r.db, op).Ok?
    case Commit(i, m) =>
      && i < |r.writes| && Admits(r.db, r.writes[i], m)
      && forall y :: y in r.writes ==> NewFor(r.writes[i], y, m)
  }

  ghost function After(r: Races, t: Step): Races
    requires CanStep(r, t)
  {
    match t
    case Begin(op) => r.(writes := r.writes + [Plan(r.db, op)])
    case Commit(i, m) => Races(Written(r.db, r.writes[i], m), RemoveAt(r.writes, i) + Follow(r.writes[i]))
  }

  ghost predicate LegalRaces(r: Races, steps: seq<Step>)
    decreases |steps|
  {
    steps == [] || (CanStep(r, steps[0]) && LegalRaces(After(r, steps[0]), steps[1..]))
  }

  ghost function RunRaces(r: Races, steps: seq<Step>): Races
    requires LegalRaces(r, steps)
    decreases |steps|
  {
    if steps == [] then r else RunRaces(After(r, steps[0]), steps[1..])
  }

  /** The writes go through at once, with the atomic operation's outcome. */
  ghost predicate IsAtomic(db: Db, op: Op)
    requires Apply(db, op).Ok?
  {
    var x, m := Plan(db, op), MintedFor(op);
    && Admits(db, x, m)
    && if Follow(x) == [] then Written(db, x, m) == Apply(db, op).value
       else Admits(Written(db, x, m), Follow(x)[0], m)
            && Written(Written(db, x, m), Follow(x)[0], m) == Apply(db, op).value
  }

  lemma RoleOpsAtomic(db: Db, op: Op)
    requires Inv(db) && Fresh(db, op) && Apply(db, op).Ok? && (op.CreatesRole? || op.DeletesRole?)
    ensures IsAtomic(db, op)
  {
    Holder(db, op.team, op.actor);
  }

  lemma UpdateAtomic(db: Db, op: Op)
    requires Inv(db) && Apply(db, op).Ok? && op.UpdatesRole?
    ensures IsAtomic(db, op)
  {
  }

  lemma ChangeAtomic(db: Db, op: Op)
    requires Apply(db, op).Ok? && op.ChangesRole?
    ensures IsAtomic(db, op)
  {
  }

  /** The two statements of a removal. */
  lemma SeatThenActive(db: Db, seat: Seat, m: Minted)
    requires seat in db.members
    ensures
      var bare := Written(db, DropSeat(seat), m);
      Written(bare, ClearActive(seat.user, seat.team), m) == WithoutSeat(db, seat)
  {
    var bare := Written(db, DropSeat(seat), m);
    assert WithoutActive(bare, u => u == seat.user, seat.team).users == WithoutSeat(db, seat).users;
  }

  lemma RemovedIs(db: Db, op: Op)
    requires Apply(db, op).Ok? && (op.Removes? || op.Leaves?)
    ensures
      var seat := Seat(op.team, op.user);
      Plan(db, op) == DropSeat(seat) && seat in db.members && Apply(db, op).value == WithoutSeat(db, seat)
  {
  }

  lemma RemovalAtomic(db: Db, op: Op)
    requires Apply(db, op).Ok? && (op.Removes? || op.Leaves?)
    ensures IsAtomic(db, op)
  {
    RemovedIs(db, op);
    SeatThenActive(db, Seat(op.team, op.user), MintedFor(op));
  }

  lemma InviteOpsAtomic(db: Db, op: Op)
    requires Inv(db) && Fresh(db, op) && Apply(db, op).Ok? && (op.Invites? || op.Revokes?)
    ensures IsAtomic(db, op)
  {
    if op.Invites? {
      Holder(db, op.team, op.actor);
    }
  }

  lemma SwitchAtomic(db: Db, op: Op)
    requires Inv(db) && Apply(db, op).Ok? && op.Switches?
    ensures IsAtomic(db, op)
  {
    assert SeatFits(db, Seat(op.team, op.user), db.members[Seat(op.team, op.user)]);
  }

  lemma TeamOpsAtomic(db: Db, op: Op)
    requires Inv(db) && Fresh(db, op) && Apply(db, op).Ok?
    requires op.Registers? || op.CreatesTeam? || op.EnsuresTeam? || op.DeletesTeam?
    ensures IsAtomic(db, op)
  {
    if op.DeletesTeam? {
      var detached := WithoutActive(db, _ => true, op.team);
      assert WithoutTeam(detached, op.team).users == WithoutTeam(db, op.team).users;
    }
  }

  /** An operation that nothing overlaps is the atomic one. */
  lemma UndisturbedIsAtomic(db: Db, op: Op)
    requires Inv(db) && Fresh(db, op) && Apply(db, op).Ok?
    ensures IsAtomic(db, op)
  {
    match op
    case CreatesRole(_, _, _, _, _, _) => RoleOpsAtomic(db, op);
    case DeletesRole(_, _, _) => RoleOpsAtomic(db, op);
    case UpdatesRole(_, _, _, _, _, _) => UpdateAtomic(db, op);
    case ChangesRole(_, _, _, _) => ChangeAtomic(db, op);
    case Removes(_, _, _) => RemovalAtomic(db, op);
    case Leaves(_, _) => RemovalAtomic(db, op);
    case Invites(_, _, _, _, _, _) => InviteOpsAtomic(db, op);
    case Revokes(_, _, _) => InviteOpsAtomic(db, op);
    case Accepts(user, token, now) => AcceptAdmitted(db, user, token, now);
    case Switches(_, _) => SwitchAtomic(db, op);
    case _ => TeamOpsAtomic(db, op);
  }

  lemma AcceptAdmitted(db: Db, user: int, token: string, now: int)
    requires Inv(db) && AcceptInvite(db, user, token, now).Ok?
    ensures Named(db, token).Some? && Named(db, token).value in db.invites
    ensures
      var a := Named(db, token).value;
      a.team in db.teams && db.invites[a].roleId in db.roles && user in db.users
      && Joined(db, a, user, db.invites[a].roleId) == AcceptInvite(db, user, token, now).value
  {
    var a := Named(db, token).value;
    assert InviteFits(db, a, db.invites[a]);
  }

  function MintedFor(op: Op): Minted {
    match op
    case Registers(id, _) => Minted(id, Ids(0, 0, 0, 0))
    case CreatesTeam(_, team, ids) => Minted(team, ids)
    case EnsuresTeam(_, team, ids) => Minted(team, ids)
    case CreatesRole(_, _, id, _, _, _) => Minted(id, Ids(0, 0, 0, 0))
    case _ => Minted(0, Ids(0, 0, 0, 0))
  }

  // ---- What a pending write may rely on, however stale ----

  predicate OwnersRole(db: Db, team: int, roleId: int) {
    team in db.teams && roleId == db.teams[team].ownerRole
  }

  predicate Owns(db: Db, team: int, user: int) {
    team in db.teams && user == db.teams[team].owner
  }

  /** The role, if it still exists, is one of the team's and not its Owner role. */
  predicate Ordinary(db: Db, team: int, roleId: int) {
    !OwnersRole(db, team, roleId) && (roleId in db.roles ==> db.roles[roleId].team == team)
  }

  /** The address is not the owner's. */
  predicate NotOwners(db: Db, a: Address) {
    forall u :: u in db.users && db.users[u].email == a.email ==> !Owns(db, a.team, u)
  }

  predicate WriteOk(db: Db, x: Write) {
    match x
    case PutUser(email) => Lower(email) == email
    case PutRole(role) => role.rank < 100
    case SetRole(id, team, _, _, rank) => Ordinary(db, team, id) && (rank.Some? ==> rank.value < 100)
    case DropRole(id, team) => Ordinary(db, team, id)
    case SetSeat(seat, roleId) => Ordinary(db, seat.team, roleId) && !Owns(db, seat.team, seat.user)
    case DropSeat(seat) => !Owns(db, seat.team, seat.user)
    case PutInvite(a, i) => Ordinary(db, a.team, i.roleId) && NotOwners(db, a)
    case Join(a, user, roleId) => Ordinary(db, a.team, roleId) && !Owns(db, a.team, user)
    case _ => true
  }

  /** No address an invite was sent to, used or not, is the owner's. */
  predicate OwnersUninvited(db: Db) {
    forall a :: a in db.invites ==> NotOwners(db, a)
  }

  predicate Sound(r: Races) {
    && Core(r.db) && OwnersUninvited(r.db)
    && forall x :: x in r.writes ==> WriteOk(r.db, x)
  }

  // ---- The checks establish it ----

  lemma ActorBelow(db: Db, actor: int, team: int, permission: string)
    requires Core(db) && Acting(db, actor, team, permission).Some?
    ensures team in db.teams && Acting(db, actor, team, permission).value.rank <= 100
  {
    Holder(db, team, actor);
  }

  lemma BelowOwner(db: Db, team: int, id: int)
    requires Core(db) && RoleIn(db, team, id).Some? && db.roles[id].rank < 100
    ensures Ordinary(db, team, id)
  {
    assert RoleFits(db.teams[team], id, db.roles[id]);
  }

  lemma NotLastNotOwner(db: Db, team: int, user: int)
    requires Core(db) && HeldRole(db, Seat(team, user)).Some?
    requires !IsLastOwner(db, team, HeldRole(db, Seat(team, user)).value)
    ensures !Owns(db, team, user)
  {
    OnlyCreatorIsLast(db, team, user);
  }

  /** The owner is a member, so nobody invites the owner. */
  lemma FreeAddress(db: Db, a: Address)
    requires Core(db) && !MemberAt(db, a)
    ensures NotOwners(db, a)
  {
    forall u | u in db.users && db.users[u].email == a.email ensures !Owns(db, a.team, u) {
      if Owns(db, a.team, u) {
        CreatorIsMember(db, a.team);
      }
    }
  }

  lemma RolePlanOk(db: Db, op: Op)
    requires Core(db) && Apply(db, op).Ok? && (op.CreatesRole? || op.UpdatesRole? || op.DeletesRole?)
    ensures WriteOk(db, Plan(db, op))
  {
    ActorBelow(db, op.actor, op.team, MANAGE_ROLES);
    if !op.CreatesRole? {
      BelowOwner(db, op.team, op.id);
    }
  }

  lemma SeatPlanOk(db: Db, op: Op)
    requires Core(db) && Apply(db, op).Ok? && (op.ChangesRole? || op.Removes? || op.Leaves?)
    ensures WriteOk(db, Plan(db, op))
  {
    NotLastNotOwner(db, op.team, op.user);
    if op.ChangesRole? {
      ActorBelow(db, op.actor, op.team, MANAGE_MEMBERS);
      BelowOwner(db, op.team, op.id);
    }
  }

  lemma InvitePlanOk(db: Db, op: Op)
    requires Core(db) && OwnersUninvited(db) && Apply(db, op).Ok? && (op.Invites? || op.Accepts?)
    ensures WriteOk(db, Plan(db, op))
  {
    if op.Invites? {
      ActorBelow(db, op.actor, op.team, MANAGE_MEMBERS);
      BelowOwner(db, op.team, op.id);
      FreeAddress(db, Address(op.team, Normalise(op.email)));
    } else {
      var a := Named(db, op.token).value;
      assert InviteFits(db, a, db.invites[a]) && NotOwners(db, a);
    }
  }

  lemma BeginSound(r: Races, op: Op)
    requires Sound(r) && CanStep(r, Begin(op))
    ensures Sound(After(r, Begin(op)))
  {
    var x := Plan(r.db, op);
    assert WriteOk(r.db, x) by {
      match op
      case Registers(_, email) => LowerIdempotent(Trim(email));
      case CreatesRole(_, _, _, _, _, _) => RolePlanOk(r.db, op);
      case UpdatesRole(_, _, _, _, _, _) => RolePlanOk(r.db, op);
      case DeletesRole(_, _, _) => RolePlanOk(r.db, op);
      case ChangesRole(_, _, _, _) => SeatPlanOk(r.db, op);
      case Removes(_, _, _) => SeatPlanOk(r.db, op);
      case Leaves(_, _) => SeatPlanOk(r.db, op);
      case Invites(_, _, _, _, _, _) => InvitePlanOk(r.db, op);
      case Accepts(_, _, _) => InvitePlanOk(r.db, op);
      case _ =>
    }
  }

  // ---- And no write disturbs it ----

  /** What never changes about a row that exists: a team's owner and Owner role, a role's team,
      a user's address. */
  predicate Grows(db: Db, after: Db, newTeams: set<int>, newRoles: set<int>) {
    && (forall t :: t in after.teams ==> t in newTeams || (t in db.teams && after.teams[t] == db.teams[t]))
    && (forall r :: r in after.roles ==> r in newRoles || (r in db.roles && after.roles[r].team == db.roles[r].team))
    && (forall u :: u in after.users && u in db.users ==> after.users[u].email == db.users[u].email)
  }

  function NewTeams(x: Write, m: Minted): set<int> {
    if x.PutTeam? then {m.id} else {}
  }

  function NewRoles(x: Write, m: Minted): set<int> {
    if x.PutTeam? then {m.ids.owner, m.ids.admin, m.ids.operator, m.ids.viewer}
    else if x.PutRole? then {m.id} else {}
  }

  lemma WrittenGrows(db: Db, x: Write, m: Minted)
    requires Admits(db, x, m)
    ensures Grows(db, Written(db, x, m), NewTeams(x, m), NewRoles(x, m))
  {
  }

  /** Owners are users, and who joins later owns nothing yet. */
  lemma OwnersAreUsers(db: Db)
    requires TeamsOk(db) && MembersOk(db)
    ensures forall t :: t in db.teams ==> db.teams[t].owner in db.users
  {
    forall t | t in db.teams ensures db.teams[t].owner in db.users {
      var m := Seat(t, db.teams[t].owner);
      assert SeatFits(db, m, db.members[m]);
    }
  }

  lemma NotOwnersStays(db: Db, after: Db, a: Address, newTeams: set<int>, newRoles: set<int>)
    requires TeamsOk(db) && MembersOk(db) && Grows(db, after, newTeams, newRoles) && a.team !in newTeams
    requires NotOwners(db, a)
    ensures NotOwners(after, a)
  {
    OwnersAreUsers(db);
  }

  lemma OrdinaryStays(db: Db, after: Db, team: int, roleId: int, newTeams: set<int>, newRoles: set<int>)
    requires Grows(db, after, newTeams, newRoles) && team !in newTeams && roleId !in newRoles
    requires Ordinary(db, team, roleId)
    ensures Ordinary(after, team, roleId)
  {
  }

  lemma OwnsStays(db: Db, after: Db, team: int, user: int, newTeams: set<int>, newRoles: set<int>)
    requires Grows(db, after, newTeams, newRoles) && team !in newTeams && !Owns(db, team, user)
    ensures !Owns(after, team, user)
  {
  }

  lemma WriteOkGrows(db: Db, after: Db, y: Write, newTeams: set<int>, newRoles: set<int>)
    requires TeamsOk(db) && MembersOk(db) && Grows(db, after, newTeams, newRoles) && WriteOk(db, y)
    requires TeamsOf(y) !! newTeams && RolesOf(y) !! newRoles
    ensures WriteOk(after, y)
  {
    match y
    case SetRole(id, team, _, _, _) => OrdinaryStays(db, after, team, id, newTeams, newRoles);
    case DropRole(id, team) => OrdinaryStays(db, after, team, id, newTeams, newRoles);
    case SetSeat(seat, roleId) =>
      OrdinaryStays(db, after, seat.team, roleId, newTeams, newRoles);
      OwnsStays(db, after, seat.team, seat.user, newTeams, newRoles);
    case DropSeat(seat) => OwnsStays(db, after, seat.team, seat.user, newTeams, newRoles);
    case PutInvite(a, i) =>
      OrdinaryStays(db, after, a.team, i.roleId, newTeams, newRoles);
      NotOwnersStays(db, after, a, newTeams, newRoles);
    case Join(a, user, roleId) =>
      OrdinaryStays(db, after, a.team, roleId, newTeams, newRoles);
      OwnsStays(db, after, a.team, user, newTeams, newRoles);
    case _ =>
  }

  lemma WriteOkStays(db: Db, x: Write, m: Minted, y: Write)
    requires TeamsOk(db) && MembersOk(db) && Admits(db, x, m) && WriteOk(db, y) && NewFor(x, y, m)
    ensures WriteOk(Written(db, x, m), y)
  {
    WrittenGrows(db, x, m);
    WriteOkGrows(db, Written(db, x, m), y, NewTeams(x, m), NewRoles(x, m));
  }

  lemma OwnersUninvitedStays(db: Db, x: Write, m: Minted)
    requires Core(db) && OwnersUninvited(db) && Admits(db, x, m) && WriteOk(db, x)
    ensures OwnersUninvited(Written(db, x, m))
  {
    WrittenGrows(db, x, m);
    var after := Written(db, x, m);
    forall a | a in after.invites ensures NotOwners(after, a) {
      if a in db.invites {
        assert InviteFits(db, a, db.invites[a]);
      }
      assert NotOwners(db, a) && a.team !in NewTeams(x, m);
      NotOwnersStays(db, after, a, NewTeams(x, m), NewRoles(x, m));
    }
  }

  // ---- Each write keeps the core ----

  lemma PutUserCore(db: Db, id: int, email: string)
    requires Core(db) && id !in db.users && !HasEmail(db, email) && Lower(email) == email
    ensures Core(WithUser(db, id, email))
  {
    UserKeepsSeats(db, id, email);
  }

  lemma PutTeamCore(db: Db, team: int, owner: int, isPersonal: bool, ids: Ids)
    requires Core(db) && FreshTeam(db, team, ids) && owner in db.users
    ensures Core(WithTeam(db, team, owner, isPersonal, ids))
  {
    SeededRolesFit(team, owner, isPersonal, ids);
    TeamKeepsRoles(db, team, owner, isPersonal, ids);
    TeamKeepsTeams(db, team, owner, isPersonal, ids);
    TeamKeepsHolders(db, team, owner, isPersonal, ids);
  }

  /** The core does not depend on active teams. */
  lemma ActivesCore(db: Db, after: Db)
    requires Core(db) && after == db.(users := after.users) && after.users.Keys == db.users.Keys
    requires forall u :: u in db.users ==> after.users[u].email == db.users[u].email
    ensures Core(after)
  {
    SeatsCarryOver(db, after);
    InvitesCarryOver(db, after);
  }

  lemma ActiveCore(db: Db, user: int, team: Option<int>)
    requires Core(db) && user in db.users
    ensures Core(WithActive(db, user, team))
  {
    SeatsCarryOver(db, WithActive(db, user, team));
    InvitesCarryOver(db, WithActive(db, user, team));
  }

  lemma WithRoleCore(db: Db, id: int, role: Role)
    requires Core(db) && RoleWritable(db, id, role)
    ensures Core(WithRole(db, id, role))
  {
    RoleKeepsNames(db, id, role);
    RoleKeepsTeams(db, id, role);
    RoleKeepsHolders(db, id, role);
  }

  lemma PutRoleCore(db: Db, id: int, role: Role)
    requires Core(db) && role.team in db.teams && id !in db.roles && !NameUsed(db, role.team, role.name)
    requires role.rank < 100
    ensures Core(WithRole(db, id, role))
  {
    OwnerNameTaken(db, role.team);
    WithRoleCore(db, id, role);
  }

  lemma SetRoleCore(db: Db, x: Write, m: Minted)
    requires Core(db) && x.SetRole? && Admits(db, x, m) && WriteOk(db, x)
    ensures Core(Written(db, x, m))
  {
    var role := db.roles[x.id];
    assert RoleFits(db.teams[x.team], x.id, role);
    OwnerNameTaken(db, x.team);
    RewrittenNameFree(db, x, m);
    WithRoleCore(db, x.id, Rewritten(role, x));
  }

  lemma RewrittenNameFree(db: Db, x: Write, m: Minted)
    requires NamesUnique(db) && x.SetRole? && Admits(db, x, m)
    ensures
      var name := Rewritten(db.roles[x.id], x).name;
      && (name == db.roles[x.id].name || !NameUsed(db, x.team, name))
      && forall r :: r in db.roles && r != x.id && db.roles[r].team == x.team ==> db.roles[r].name != name
  {
  }

  lemma DropRoleCore(db: Db, id: int, team: int)
    requires Core(db) && RoleIn(db, team, id).Some? && !InUse(db, id) && Ordinary(db, team, id)
    ensures Core(WithoutRole(db, id))
  {
    RoleGoneKeepsHolders(db, id);
    RoleGoneKeepsTeams(db, id, team);
  }

  lemma RoleGoneKeepsTeams(db: Db, id: int, team: int)
    requires TeamsOk(db) && RolesOk(db) && NamesUnique(db) && RoleIn(db, team, id).Some? && Ordinary(db, team, id)
    ensures TeamsOk(WithoutRole(db, id)) && RolesOk(WithoutRole(db, id)) && NamesUnique(WithoutRole(db, id))
  {
  }

  lemma SeatCore(db: Db, seat: Seat, roleId: int)
    requires Core(db) && SeatFits(db, seat, roleId) && Ordinary(db, seat.team, roleId)
    requires !Owns(db, seat.team, seat.user)
    ensures Core(WithSeat(db, seat, roleId))
  {
    var after := WithSeat(db, seat, roleId);
    InvitesCarryOver(db, after);
    forall x | x in after.members ensures SeatFits(after, x, after.members[x]) {
      assert x != seat ==> SeatFits(db, x, db.members[x]);
    }
    SeatKeepsTeams(db, seat, roleId);
  }

  lemma SeatKeepsTeams(db: Db, seat: Seat, roleId: int)
    requires TeamsOk(db) && !Owns(db, seat.team, seat.user)
    ensures TeamsOk(WithSeat(db, seat, roleId))
  {
  }

  lemma DropSeatCore(db: Db, seat: Seat)
    requires Core(db) && seat in db.members && !Owns(db, seat.team, seat.user)
    ensures Core(db.(members := db.members - {seat}))
  {
    assert SeatFits(db, seat, db.members[seat]);
    SeatGoneKeepsTeams(db, seat);
    SeatGoneKeepsSeats(db, seat);
    ActivesCore(WithoutSeat(db, seat), db.(members := db.members - {seat}));
  }

  lemma InviteCore(db: Db, a: Address, i: Invite)
    requires Core(db) && InviteFits(db, a, i)
    requires forall b :: b in db.invites && b != a ==> db.invites[b].token != i.token
    ensures Core(WithInvite(db, a, i))
  {
    InviteKeepsInvites(db, a, i);
    SeatsCarryOver(db, WithInvite(db, a, i));
  }

  lemma MarkCore(db: Db, a: Address, i: Invite)
    requires Core(db) && a in db.invites && i.roleId == db.invites[a].roleId && i.token == db.invites[a].token
    ensures Core(WithInvite(db, a, i))
  {
    assert InviteFits(db, a, db.invites[a]);
    InviteCore(db, a, i);
  }

  lemma JoinCore(db: Db, a: Address, user: int, roleId: int)
    requires Core(db) && a in db.invites && a.team in db.teams && roleId in db.roles && user in db.users
    requires Ordinary(db, a.team, roleId) && !Owns(db, a.team, user)
    ensures Core(Joined(db, a, user, roleId))
  {
    var used := WithInvite(db, a, db.invites[a].(accepted := true));
    MarkCore(db, a, db.invites[a].(accepted := true));
    SeatCore(used, Seat(a.team, user), roleId);
    ActiveCore(WithSeat(used, Seat(a.team, user), roleId), user, Some(a.team));
  }

  lemma DropTeamCore(db: Db, team: int)
    requires Core(db)
    ensures Core(WithoutTeam(db, team))
  {
    TeamGoneKeepsRoles(db, team);
    TeamGoneKeepsTeams(db, team);
    TeamGoneKeepsHolders(db, team);
  }

  lemma WrittenCore(db: Db, x: Write, m: Minted)
    requires Core(db) && Admits(db, x, m) && WriteOk(db, x)
    ensures Core(Written(db, x, m))
  {
    match x
    case PutUser(email) => PutUserCore(db, m.id, email);
    case PutTeam(owner, isPersonal, activate) =>
      PutTeamCore(db, m.id, owner, isPersonal, m.ids);
      ActiveCore(WithTeam(db, m.id, owner, isPersonal, m.ids), owner, Some(m.id));
    case PutRole(role) => PutRoleCore(db, m.id, role);
    case SetRole(_, _, _, _, _) => SetRoleCore(db, x, m);
    case DropRole(id, team) => DropRoleCore(db, id, team);
    case SetSeat(seat, roleId) =>
      assert SeatFits(db, seat, db.members[seat]);
      SeatCore(db, seat, roleId);
    case DropSeat(seat) => DropSeatCore(db, seat);
    case PutInvite(a, i) => InviteCore(db, a, i);
    case Revoke(a) => MarkCore(db, a, db.invites[a].(revoked := true));
    case Join(a, user, roleId) => JoinCore(db, a, user, roleId);
    case DropTeam(team) => DropTeamCore(db, team);
    case SetActive(user, team) => ActiveCore(db, user, Some(team));
    case ClearActive(_, _) => ActivesCore(db, Written(db, x, m));
    case Detach(_) => ActivesCore(db, Written(db, x, m));
    case Nothing =>
  }

  lemma CommitSound(r: Races, i: nat, m: Minted)
    requires Sound(r) && CanStep(r, Commit(i, m))
    ensures Sound(After(r, Commit(i, m)))
  {
    var x := r.writes[i];
    assert x in r.writes;
    WrittenCore(r.db, x, m);
    OwnersUninvitedStays(r.db, x, m);
    forall y | y in RemoveAt(r.writes, i) + Follow(x) ensures WriteOk(Written(r.db, x, m), y) {
      if y in RemoveAt(r.writes, i) {
        assert y in r.writes;
        WriteOkStays(r.db, x, m, y);
      }
    }
  }

  lemma {:induction false} RunSound(r: Races, steps: seq<Step>)
    requires Sound(r) && LegalRaces(r, steps)
    ensures Sound(RunRaces(r, steps))
    decreases |steps|
  {
    if steps != [] {
      match steps[0]
      case Begin(op) => BeginSound(r, op);
        RunSound(After(r, steps[0]), steps[1..]);
      case Commit(i, m) => CommitSound(r, i, m);
        RunSound(After(r, steps[0]), steps[1..]);
    }
  }

  /** However operations overlap and however stale their checks are when they write, each team
      has exactly one Owner, its creator, with rank 100 and every permission, and everybody else
      ranks below. */
  lemma OneOwnerUnderRaces(steps: seq<Step>, team: int)
    requires LegalRaces(Races(EMPTY, []), steps)
    ensures
      var db := RunRaces(Races(EMPTY, []), steps).db;
      team in db.teams ==>
        && Owners(db, team) == {Seat(team, db.teams[team].owner)}
        && HeldRole(db, Seat(team, db.teams[team].owner)).Some?
        && HeldRole(db, Seat(team, db.teams[team].owner)).value.rank == 100
        && HeldRole(db, Seat(team, db.teams[team].owner)).value.permissions == PERMISSIONS
        && forall u :: u != db.teams[team].owner && HeldRole(db, Seat(team, u)).Some? ==>
             HeldRole(db, Seat(team, u)).value.rank < 100
  {
    RunSound(Races(EMPTY, []), steps);
    var db := RunRaces(Races(EMPTY, []), steps).db;
    if team in db.teams {
      ExactlyOneOwner(db, team);
      forall u | u != db.teams[team].owner && HeldRole(db, Seat(team, u)).Some?
        ensures HeldRole(db, Seat(team, u)).value.rank < 100
      {
        Holder(db, team, u);
      }
    }
  }
}
