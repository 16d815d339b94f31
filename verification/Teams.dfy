/** Teams, roles, members and invites (src/server/modules/teams/team.service.ts), with the
    permission checks of src/app/_actions/teams.ts. Every operation is one database step. */
module Teams {
  import opened Prelude

  const OWNER := "Owner"

  const MANAGE_MEMBERS := "team:manage_members"
  const MANAGE_ROLES := "team:manage_roles"
  const MANAGE_SETTINGS := "team:manage_settings"

  const PERMISSIONS: set<string> := {
    "device:read", "device:create", "device:update", "device:delete", "device:revoke",
    "command:read", "command:execute", "ai:use", "audit:read", "team:read",
    MANAGE_MEMBERS, MANAGE_ROLES, MANAGE_SETTINGS
  }

  const OPERATES: set<string> := {
    "device:read", "device:create", "device:update", "command:read", "command:execute", "ai:use", "audit:read",
    "team:read"
  }

  const VIEWS: set<string> := {"device:read", "command:read", "audit:read", "team:read"}

  const INVITE_MS := 604_800_000

  // ---- Tables ----

  datatype User = User(email: string, active: Option<int>)

  /** `owner` and `ownerRole` record who created the team and the Owner role it was seeded
      with; no operation reads them. */
  datatype Team = Team(isPersonal: bool, owner: int, ownerRole: int)

  datatype Role = Role(team: int, name: string, permissions: set<string>, rank: int, isSystem: bool)

  datatype Seat = Seat(team: int, user: int)

  datatype Address = Address(team: int, email: string)

  datatype Invite = Invite(roleId: int, token: string, expiresAt: int, accepted: bool, revoked: bool)

  datatype Db = Db(users: map<int, User>, teams: map<int, Team>, roles: map<int, Role>,
                   members: map<Seat, int>, invites: map<Address, Invite>)

  datatype TeamError =
    | Forbidden | UnknownPermission | NameRequired | NameTaken | InvalidRank | RankTooHigh
    | RoleNotFound | RoleTooSenior | SystemRole | OwnerPermissions | RoleInUse
    | MemberNotFound | MemberTooSenior | OwnSeat | LastOwner | AlreadyMember
    | InviteNotFound | InviteRevoked | InviteUsed | InviteExpired | WrongAddress
    | PersonalTeam | NotAMember | UserNotFound | EmailTaken | BrokerFailed

  predicate Pending(i: Invite) {
    !i.accepted && !i.revoked
  }

  // ---- Strings ----

  function LowerChar(c: char): char {
    if 'A' <= c <= 'Z' then ((c as int) + 32) as char else c
  }

  function Lower(s: string): string {
    seq(|s|, i requires 0 <= i < |s| => LowerChar(s[i]))
  }

  function Normalise(email: string): string {
    Lower(Trim(email))
  }

  lemma LowerIdempotent(s: string)
    ensures Lower(Lower(s)) == Lower(s)
  {
    forall i | 0 <= i < |s| ensures LowerChar(LowerChar(s[i])) == LowerChar(s[i]) {
    }
  }

  // ---- Row updates ----

  function WithUser(db: Db, id: int, email: string): Db {
    db.(users := db.users[id := User(email, None)])
  }

  function WithActive(db: Db, user: int, team: Option<int>): Db
    requires user in db.users
  {
    db.(users := db.users[user := db.users[user].(active := team)])
  }

  function WithRole(db: Db, id: int, role: Role): Db {
    db.(roles := db.roles[id := role])
  }

  /** Deleting a role deletes the invites that carry it. */
  function WithoutRole(db: Db, id: int): Db {
    db.(roles := db.roles - {id},
        invites := map a | a in db.invites && db.invites[a].roleId != id :: db.invites[a])
  }

  function WithSeat(db: Db, seat: Seat, roleId: int): Db {
    db.(members := db.members[seat := roleId])
  }

  /** Deleting a membership leaves no user pointing at a team they are no longer in. */
  function WithoutSeat(db: Db, seat: Seat): Db {
    db.(members := db.members - {seat},
        users := map u | u in db.users ::
          if u == seat.user && db.users[u].active == Some(seat.team) then db.users[u].(active := None) else db.users[u])
  }

  function WithInvite(db: Db, a: Address, i: Invite): Db {
    db.(invites := db.invites[a := i])
  }

  datatype Ids = Ids(owner: int, admin: int, operator: int, viewer: int)

  function SeededRoles(team: int, ids: Ids): map<int, Role> {
    map[ids.owner := Role(team, OWNER, PERMISSIONS, 100, true),
        ids.admin := Role(team, "Admin", PERMISSIONS - {MANAGE_SETTINGS}, 80, true),
        ids.operator := Role(team, "Operator", OPERATES, 50, true),
        ids.viewer := Role(team, "Viewer", VIEWS, 10, true)]
  }

  function WithTeam(db: Db, team: int, owner: int, isPersonal: bool, ids: Ids): Db {
    db.(teams := db.teams[team := Team(isPersonal, owner, ids.owner)],
        roles := db.roles + SeededRoles(team, ids),
        members := db.members[Seat(team, owner) := ids.owner])
  }

  /** Deleting a team deletes everything that belongs to it. */
  function WithoutTeam(db: Db, team: int): Db {
    Db(map u | u in db.users :: if db.users[u].active == Some(team) then db.users[u].(active := None) else db.users[u],
       db.teams - {team},
       map r | r in db.roles && db.roles[r].team != team :: db.roles[r],
       map m | m in db.members && m.team != team :: db.members[m],
       map a | a in db.invites && a.team != team :: db.invites[a])
  }

  // ---- Lookups ----

  function RoleIn(db: Db, team: int, id: int): Option<Role> {
    if id in db.roles && db.roles[id].team == team then Some(db.roles[id]) else None
  }

  function HeldRole(db: Db, seat: Seat): Option<Role> {
    if seat in db.members && db.members[seat] in db.roles then Some(db.roles[db.members[seat]]) else None
  }

  /** The actor's role in the team, if it grants the permission. */
  function Acting(db: Db, actor: int, team: int, permission: string): Option<Role> {
    var held := HeldRole(db, Seat(team, actor));
    if held.Some? && permission in held.value.permissions then held else None
  }

  predicate NameUsed(db: Db, team: int, name: string) {
    exists r :: r in db.roles && db.roles[r].team == team && db.roles[r].name == name
  }

  function Owners(db: Db, team: int): set<Seat> {
    set m | m in db.members && m.team == team && HeldRole(db, m).Some? && HeldRole(db, m).value.name == OWNER
  }

  /** ensureNotLastOwner fails. */
  predicate IsLastOwner(db: Db, team: int, held: Role) {
    held.name == OWNER && |Owners(db, team)| <= 1
  }

  predicate HasEmail(db: Db, email: string) {
    exists u :: u in db.users && db.users[u].email == email
  }

  /** The address already belongs to a member of the team. */
  predicate MemberAt(db: Db, a: Address) {
    exists u :: u in db.users && db.users[u].email == a.email && Seat(a.team, u) in db.members
  }

  predicate InUse(db: Db, roleId: int) {
    exists m :: m in db.members && db.members[m] == roleId
  }

  predicate HasTeam(db: Db, user: int) {
    exists m :: m in db.members && m.user == user
  }

  // ---- Operations ----

  function Register(db: Db, id: int, email: string): Result<Db, TeamError> {
    if HasEmail(db, Normalise(email)) then Err(EmailTaken)
    else Ok(WithUser(db, id, Normalise(email)))
  }

  function CreateTeam(db: Db, owner: int, team: int, isPersonal: bool, ids: Ids): Result<Db, TeamError> {
    if owner !in db.users then Err(UserNotFound) else Ok(WithTeam(db, team, owner, isPersonal, ids))
  }

  function EnsurePersonalTeam(db: Db, user: int, team: int, ids: Ids): Result<Db, TeamError> {
    if HasTeam(db, user) then Ok(db)
    else if user !in db.users then Err(UserNotFound)
    else Ok(WithActive(WithTeam(db, team, user, true, ids), user, Some(team)))
  }

  function CreateRole(db: Db, actor: int, team: int, id: int, name: string, permissions: seq<string>,
                      rank: int): Result<Db, TeamError>
  {
    var acting := Acting(db, actor, team, MANAGE_ROLES);
    if acting.None? then Err(Forbidden)
    else if !(1 <= rank <= 99) then Err(InvalidRank)
    else if rank >= acting.value.rank then Err(RankTooHigh)
    else if !(Elems(permissions) <= PERMISSIONS) then Err(UnknownPermission)
    else if Trim(name) == "" then Err(NameRequired)
    else if NameUsed(db, team, Trim(name)) then Err(NameTaken)
    else Ok(WithRole(db, id, Role(team, Trim(name), Elems(permissions), rank, false)))
  }

  function UpdateRole(db: Db, actor: int, team: int, id: int, name: Option<string>, permissions: Option<seq<string>>,
                      rank: Option<int>): Result<Db, TeamError>
  {
    var acting, target := Acting(db, actor, team, MANAGE_ROLES), RoleIn(db, team, id);
    if acting.None? then Err(Forbidden)
    else if target.None? then Err(RoleNotFound)
    else
      var role := target.value;
      var renamed := name.Some? && name.value != "";
      if role.rank >= acting.value.rank then Err(RoleTooSenior)
      else if rank.Some? && rank.value >= acting.value.rank then Err(RankTooHigh)
      else if role.isSystem && (renamed || rank.Some?) then Err(SystemRole)
      else if role.name == OWNER && permissions.Some? then Err(OwnerPermissions)
      else if permissions.Some? && !(Elems(permissions.value) <= PERMISSIONS) then Err(UnknownPermission)
      else if renamed && Trim(name.value) != role.name && NameUsed(db, team, Trim(name.value)) then Err(NameTaken)
      else Ok(WithRole(db, id, Role(team,
                                    if renamed then Trim(name.value) else role.name,
                                    if permissions.Some? then Elems(permissions.value) else role.permissions,
                                    if rank.Some? then rank.value else role.rank,
                                    role.isSystem)))
  }

  function DeleteRole(db: Db, actor: int, team: int, id: int): Result<Db, TeamError> {
    var acting, role := Acting(db, actor, team, MANAGE_ROLES), RoleIn(db, team, id);
    if acting.None? then Err(Forbidden)
    else if role.None? then Err(RoleNotFound)
    else if role.value.rank >= acting.value.rank then Err(RoleTooSenior)
    else if role.value.isSystem then Err(SystemRole)
    else if InUse(db, id) then Err(RoleInUse)
    else Ok(WithoutRole(db, id))
  }

  function ChangeMemberRole(db: Db, actor: int, team: int, user: int, roleId: int): Result<Db, TeamError> {
    var acting, held := Acting(db, actor, team, MANAGE_MEMBERS), HeldRole(db, Seat(team, user));
    var role := RoleIn(db, team, roleId);
    if acting.None? then Err(Forbidden)
    else if held.None? then Err(MemberNotFound)
    else if role.None? then Err(RoleNotFound)
    else if held.value.rank >= acting.value.rank then Err(MemberTooSenior)
    else if role.value.rank >= acting.value.rank then Err(RoleTooSenior)
    else if user == actor then Err(OwnSeat)
    else if IsLastOwner(db, team, held.value) then Err(LastOwner)
    else Ok(WithSeat(db, Seat(team, user), roleId))
  }

  function RemoveMember(db: Db, actor: int, team: int, user: int): Result<Db, TeamError> {
    var acting, held := Acting(db, actor, team, MANAGE_MEMBERS), HeldRole(db, Seat(team, user));
    if acting.None? then Err(Forbidden)
    else if held.None? then Err(MemberNotFound)
    else if held.value.rank >= acting.value.rank && user != actor then Err(MemberTooSenior)
    else if IsLastOwner(db, team, held.value) then Err(LastOwner)
    else Ok(WithoutSeat(db, Seat(team, user)))
  }

  function InviteMember(db: Db, actor: int, team: int, email: string, roleId: int, token: string,
                        now: int): Result<Db, TeamError>
  {
    var acting, role := Acting(db, actor, team, MANAGE_MEMBERS), RoleIn(db, team, roleId);
    var a := Address(team, Normalise(email));
    if acting.None? then Err(Forbidden)
    else if role.None? then Err(RoleNotFound)
    else if role.value.rank >= acting.value.rank then Err(RoleTooSenior)
    else if MemberAt(db, a) then Err(AlreadyMember)
    else Ok(WithInvite(db, a, Invite(roleId, token, now + INVITE_MS, false, false)))
  }

  function RevokeInvite(db: Db, actor: int, a: Address): Result<Db, TeamError> {
    if Acting(db, actor, a.team, MANAGE_MEMBERS).None? then Err(Forbidden)
    else if a !in db.invites then Err(InviteNotFound)
    else Ok(WithInvite(db, a, db.invites[a].(revoked := true)))
  }

  /** The invite a token names; tokens are unique. */
  ghost function Named(db: Db, token: string): Option<Address> {
    if a :| a in db.invites && db.invites[a].token == token then Some(a) else None
  }

  /** Accepting the invite at an address, or no invite at all. */
  function Accept(db: Db, user: int, named: Option<Address>, now: int): Result<Db, TeamError> {
    if named.None? || named.value !in db.invites then Err(InviteNotFound)
    else
      var a := named.value;
      var i := db.invites[a];
      if i.revoked then Err(InviteRevoked)
      else if i.accepted then Err(InviteUsed)
      else if i.expiresAt < now then Err(InviteExpired)
      else if user !in db.users then Err(UserNotFound)
      else if Lower(db.users[user].email) != a.email then Err(WrongAddress)
      else
        var used := WithInvite(db, a, i.(accepted := true));
        Ok(WithActive(WithSeat(used, Seat(a.team, user), i.roleId), user, Some(a.team)))
  }

  ghost function AcceptInvite(db: Db, user: int, token: string, now: int): Result<Db, TeamError> {
    Accept(db, user, Named(db, token), now)
  }

  function LeaveTeam(db: Db, user: int, team: int): Result<Db, TeamError> {
    var held := HeldRole(db, Seat(team, user));
    if held.None? || team !in db.teams then Err(NotAMember)
    else if db.teams[team].isPersonal then Err(PersonalTeam)
    else if IsLastOwner(db, team, held.value) then Err(LastOwner)
    else Ok(WithoutSeat(db, Seat(team, user)))
  }

  function DeleteTeam(db: Db, actor: int, team: int, brokerOk: bool): Result<Db, TeamError> {
    if Acting(db, actor, team, MANAGE_SETTINGS).None? || team !in db.teams then Err(Forbidden)
    else if db.teams[team].isPersonal then Err(PersonalTeam)
    else if !brokerOk then Err(BrokerFailed)
    else Ok(WithoutTeam(db, team))
  }

  function SwitchActiveTeam(db: Db, user: int, team: int): Result<Db, TeamError> {
    if Seat(team, user) !in db.members then Err(NotAMember)
    else if user !in db.users then Err(UserNotFound)
    else Ok(WithActive(db, user, Some(team)))
  }

  // ---- Runs ----

  datatype Op =
    | Registers(id: int, email: string)
    | CreatesTeam(owner: int, team: int, ids: Ids)
    | EnsuresTeam(user: int, team: int, ids: Ids)
    | CreatesRole(actor: int, team: int, id: int, name: string, permissions: seq<string>, rank: int)
    | UpdatesRole(actor: int, team: int, id: int, rename: Option<string>, newPermissions: Option<seq<string>>,
                  newRank: Option<int>)
    | DeletesRole(actor: int, team: int, id: int)
    | ChangesRole(actor: int, team: int, user: int, id: int)
    | Removes(actor: int, team: int, user: int)
    | Invites(actor: int, team: int, email: string, id: int, token: string, now: int)
    | Revokes(actor: int, team: int, email: string)
    | Accepts(user: int, token: string, now: int)
    | Leaves(user: int, team: int)
    | DeletesTeam(actor: int, team: int, brokerOk: bool)
    | Switches(user: int, team: int)

  predicate FreshTeam(db: Db, team: int, ids: Ids) {
    && team !in db.teams
    && {ids.owner, ids.admin, ids.operator, ids.viewer} !! db.roles.Keys
    && Distinct(ids)
  }

  predicate Distinct(ids: Ids) {
    && ids.owner != ids.admin && ids.owner != ids.operator && ids.owner != ids.viewer
    && ids.admin != ids.operator && ids.admin != ids.viewer && ids.operator != ids.viewer
  }

  predicate FreshToken(db: Db, token: string) {
    forall a :: a in db.invites ==> db.invites[a].token != token
  }

  /** Generated ids and tokens are new. */
  predicate Fresh(db: Db, op: Op) {
    match op
    case Registers(id, _) => id !in db.users
    case CreatesTeam(_, team, ids) => FreshTeam(db, team, ids)
    case EnsuresTeam(_, team, ids) => FreshTeam(db, team, ids)
    case CreatesRole(_, _, id, _, _, _) => id !in db.roles
    case Invites(_, _, _, _, token, _) => FreshToken(db, token)
    case _ => true
  }

  ghost function Apply(db: Db, op: Op): Result<Db, TeamError> {
    match op
    case Registers(id, email) => Register(db, id, email)
    case CreatesTeam(owner, team, ids) => CreateTeam(db, owner, team, false, ids)
    case EnsuresTeam(user, team, ids) => EnsurePersonalTeam(db, user, team, ids)
    case CreatesRole(actor, team, id, name, permissions, rank) =>
      CreateRole(db, actor, team, id, name, permissions, rank)
    case UpdatesRole(actor, team, id, name, permissions, rank) =>
      UpdateRole(db, actor, team, id, name, permissions, rank)
    case DeletesRole(actor, team, id) => DeleteRole(db, actor, team, id)
    case ChangesRole(actor, team, user, id) => ChangeMemberRole(db, actor, team, user, id)
    case Removes(actor, team, user) => RemoveMember(db, actor, team, user)
    case Invites(actor, team, email, id, token, now) => InviteMember(db, actor, team, email, id, token, now)
    case Revokes(actor, team, email) => RevokeInvite(db, actor, Address(team, email))
    case Accepts(user, token, now) => AcceptInvite(db, user, token, now)
    case Leaves(user, team) => LeaveTeam(db, user, team)
    case DeletesTeam(actor, team, brokerOk) => DeleteTeam(db, actor, team, brokerOk)
    case Switches(user, team) => SwitchActiveTeam(db, user, team)
  }

  /** A refused operation changes nothing. */
  ghost function Next(db: Db, op: Op): Db {
    var r := Apply(db, op);
    if r.Ok? then r.value else db
  }

  ghost predicate Legal(db: Db, ops: seq<Op>)
    decreases |ops|
  {
    ops == [] || (Fresh(db, ops[0]) && Legal(Next(db, ops[0]), ops[1..]))
  }

  ghost function Run(db: Db, ops: seq<Op>): Db
    decreases |ops|
  {
    if ops == [] then db else Run(Next(db, ops[0]), ops[1..])
  }

  const EMPTY := Db(map[], map[], map[], map[], map[])
}
