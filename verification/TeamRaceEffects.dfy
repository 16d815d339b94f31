/** What overlapping team operations cannot change, and what, unlike undisturbed ones, they can. */
module TeamRaceEffects {
  import opened Prelude
  import opened Teams
  import opened TeamInvariant
  import opened TeamRank
  import opened TeamRaces

  // ---- Rank ----

  /** No pending invite went to somebody who holds a senior role. */
  predicate SeniorsUninvited(db: Db, team: int, rank: int) {
    forall a :: a in db.invites && a.team == team && Pending(db.invites[a]) ==> NotSenior(db, a, rank)
  }

  predicate NotSenior(db: Db, a: Address, rank: int) {
    forall u :: u in db.users && db.users[u].email == a.email ==> Seat(a.team, u) !in SeniorSeats(db, a.team, rank)
  }

  /** A pending write that leaves the roles at or above the rank, and their holders, alone. */
  predicate JuniorWrite(db: Db, x: Write, team: int, rank: int) {
    match x
    case PutRole(role) => role.team == team ==> role.rank < rank
    case SetRole(id, t, _, _, newRank) =>
      t == team ==> !IsSenior(db, team, rank, id) && (newRank.Some? ==> newRank.value < rank)
    case DropRole(id, t) => t == team ==> !IsSenior(db, team, rank, id)
    case SetSeat(seat, roleId) =>
      seat.team == team ==> seat !in SeniorSeats(db, team, rank) && !IsSenior(db, team, rank, roleId)
    case DropSeat(seat) => seat !in SeniorSeats(db, team, rank)
    case PutInvite(a, i) => a.team == team ==> !IsSenior(db, team, rank, i.roleId) && NotSenior(db, a, rank)
    case Join(a, user, roleId) =>
      a.team == team ==> !IsSenior(db, team, rank, roleId) && Seat(team, user) !in SeniorSeats(db, team, rank)
    case Detach(t) => t != team
    case DropTeam(t) => t != team
    case _ => true
  }

  predicate Calm(r: Races, team: int, rank: int) {
    && Sound(r) && team in r.db.teams && NoSeniorInvite(r.db, team, rank) && SeniorsUninvited(r.db, team, rank)
    && forall x :: x in r.writes ==> JuniorWrite(r.db, x, team, rank)
  }

  lemma JuniorRolePlan(db: Db, op: Op, team: int, rank: int)
    requires Core(db) && Apply(db, op).Ok? && Junior(db, op, team, rank)
    requires op.CreatesRole? || op.UpdatesRole? || op.DeletesRole?
    ensures JuniorWrite(db, Plan(db, op), team, rank)
  {
  }

  lemma JuniorSeatPlan(db: Db, op: Op, team: int, rank: int)
    requires Core(db) && Apply(db, op).Ok? && Junior(db, op, team, rank)
    requires op.ChangesRole? || op.Removes? || op.Leaves?
    ensures JuniorWrite(db, Plan(db, op), team, rank)
  {
    Holder(db, op.team, op.user);
  }

  lemma JuniorInvitePlan(db: Db, op: Op, team: int, rank: int)
    requires Core(db) && Apply(db, op).Ok? && Junior(db, op, team, rank)
    requires NoSeniorInvite(db, team, rank) && SeniorsUninvited(db, team, rank) && (op.Invites? || op.Accepts?)
    ensures JuniorWrite(db, Plan(db, op), team, rank)
  {
    if op.Invites? {
      var a := Address(op.team, Normalise(op.email));
      assert !MemberAt(db, a);
      assert NotSenior(db, a, rank);
    } else {
      EmailsLower(db, op.user);
    }
  }

  lemma EmailsLower(db: Db, user: int)
    requires EmailsOk(db) && user in db.users
    ensures Lower(db.users[user].email) == db.users[user].email
  {
  }

  lemma BeginCalm(r: Races, op: Op, team: int, rank: int)
    requires Calm(r, team, rank) && CanStep(r, Begin(op)) && Junior(r.db, op, team, rank)
    ensures Calm(After(r, Begin(op)), team, rank)
  {
    BeginSound(r, op);
    var x := Plan(r.db, op);
    assert JuniorWrite(r.db, x, team, rank) by {
      match op
      case CreatesRole(_, _, _, _, _, _) => JuniorRolePlan(r.db, op, team, rank);
      case UpdatesRole(_, _, _, _, _, _) => JuniorRolePlan(r.db, op, team, rank);
      case DeletesRole(_, _, _) => JuniorRolePlan(r.db, op, team, rank);
      case ChangesRole(_, _, _, _) => JuniorSeatPlan(r.db, op, team, rank);
      case Removes(_, _, _) => JuniorSeatPlan(r.db, op, team, rank);
      case Leaves(_, _) => JuniorSeatPlan(r.db, op, team, rank);
      case Invites(_, _, _, _, _, _) => JuniorInvitePlan(r.db, op, team, rank);
      case Accepts(_, _, _) => JuniorInvitePlan(r.db, op, team, rank);
      case _ =>
    }
  }

  // ---- One write ----

  lemma RoleWriteFreezes(db: Db, x: Write, m: Minted, team: int, rank: int)
    requires team in db.teams && NoSeniorInvite(db, team, rank)
    requires Admits(db, x, m) && JuniorWrite(db, x, team, rank) && (x.PutRole? || x.SetRole? || x.DropRole?)
    ensures Frozen(db, Written(db, x, m), team, rank)
  {
    match x
    case PutRole(role) => RoleFreezes(db, m.id, role, team, rank);
    case SetRole(id, t, _, _, _) => RoleFreezes(db, id, Rewritten(db.roles[id], x), team, rank);
    case DropRole(id, t) => RoleGoneFreezes(db, id, team, rank);
  }

  lemma JoinFreezes(db: Db, a: Address, user: int, roleId: int, team: int, rank: int)
    requires team in db.teams && NoSeniorInvite(db, team, rank) && a in db.invites && user in db.users
    requires a.team == team ==> !IsSenior(db, team, rank, roleId) && Seat(team, user) !in SeniorSeats(db, team, rank)
    ensures Frozen(db, Joined(db, a, user, roleId), team, rank)
  {
    InviteFreezes(db, a, db.invites[a].(accepted := true), team, rank);
    var used := WithInvite(db, a, db.invites[a].(accepted := true));
    SeatFreezes(used, Seat(a.team, user), roleId, team, rank);
    var joined := WithSeat(used, Seat(a.team, user), roleId);
    UsersFreeze(joined, WithActive(joined, user, Some(a.team)), team, rank);
  }

  lemma PutTeamFreezes(db: Db, x: Write, m: Minted, team: int, rank: int)
    requires InvitesOk(db) && team in db.teams && NoSeniorInvite(db, team, rank) && x.PutTeam? && Admits(db, x, m)
    ensures Frozen(db, Written(db, x, m), team, rank)
  {
    NewTeamFreezes(db, m.id, x.owner, x.isPersonal, m.ids, team, rank);
    if x.activate {
      var seeded := WithTeam(db, m.id, x.owner, x.isPersonal, m.ids);
      UsersFreeze(seeded, WithActive(seeded, x.owner, Some(m.id)), team, rank);
    }
  }

  lemma SeatWriteFreezes(db: Db, x: Write, m: Minted, team: int, rank: int)
    requires team in db.teams && NoSeniorInvite(db, team, rank)
    requires Admits(db, x, m) && JuniorWrite(db, x, team, rank) && (x.SetSeat? || x.DropSeat? || x.DropTeam?)
    ensures Frozen(db, Written(db, x, m), team, rank)
  {
    match x
    case SetSeat(seat, roleId) => SeatFreezes(db, seat, roleId, team, rank);
    case DropSeat(seat) =>
      SeatGoneFreezes(db, seat, team, rank);
      UsersFreeze(WithoutSeat(db, seat), Written(db, x, m), team, rank);
    case DropTeam(t) => OtherTeamGoneFreezes(db, t, team, rank);
  }

  lemma InviteWriteFreezes(db: Db, x: Write, m: Minted, team: int, rank: int)
    requires team in db.teams && NoSeniorInvite(db, team, rank)
    requires Admits(db, x, m) && JuniorWrite(db, x, team, rank) && (x.PutInvite? || x.Revoke? || x.Join?)
    ensures Frozen(db, Written(db, x, m), team, rank)
  {
    match x
    case PutInvite(a, i) => InviteFreezes(db, a, i, team, rank);
    case Revoke(a) => InviteFreezes(db, a, db.invites[a].(revoked := true), team, rank);
    case Join(a, user, roleId) => JoinFreezes(db, a, user, roleId, team, rank);
  }

  lemma WrittenFreezes(db: Db, x: Write, m: Minted, team: int, rank: int)
    requires InvitesOk(db) && team in db.teams && NoSeniorInvite(db, team, rank)
    requires Admits(db, x, m) && JuniorWrite(db, x, team, rank)
    ensures Frozen(db, Written(db, x, m), team, rank)
  {
    if x.PutTeam? {
      PutTeamFreezes(db, x, m, team, rank);
    } else if x.PutRole? || x.SetRole? || x.DropRole? {
      RoleWriteFreezes(db, x, m, team, rank);
    } else if x.SetSeat? || x.DropSeat? || x.DropTeam? {
      SeatWriteFreezes(db, x, m, team, rank);
    } else if x.PutInvite? || x.Revoke? || x.Join? {
      InviteWriteFreezes(db, x, m, team, rank);
    } else {
      UserWriteFreezes(db, x, m, team, rank);
    }
  }

  lemma UserWriteFreezes(db: Db, x: Write, m: Minted, team: int, rank: int)
    requires team in db.teams && NoSeniorInvite(db, team, rank) && Admits(db, x, m)
    requires x.PutUser? || x.SetActive? || x.ClearActive? || x.Detach? || x.Nothing?
    ensures Frozen(db, Written(db, x, m), team, rank)
  {
    UsersFreeze(db, Written(db, x, m), team, rank);
  }

  lemma SeniorSame(db: Db, after: Db, team: int, rank: int, r: int)
    requires Frozen(db, after, team, rank)
    ensures IsSenior(after, team, rank, r) <==> IsSenior(db, team, rank, r)
  {
    assert IsSenior(db, team, rank, r) <==> r in SeniorRoles(db, team, rank);
    assert IsSenior(after, team, rank, r) <==> r in SeniorRoles(after, team, rank);
  }

  /** Senior seats belong to users that existed, whose addresses stay as they were. */
  lemma NotSeniorStays(db: Db, after: Db, a: Address, rank: int, newTeams: set<int>, newRoles: set<int>)
    requires MembersOk(db) && Frozen(db, after, a.team, rank) && Grows(db, after, newTeams, newRoles)
    requires NotSenior(db, a, rank)
    ensures NotSenior(after, a, rank)
  {
    forall u | u in after.users && after.users[u].email == a.email
      ensures Seat(a.team, u) !in SeniorSeats(after, a.team, rank)
    {
      assert Seat(a.team, u) in db.members ==> SeatFits(db, Seat(a.team, u), db.members[Seat(a.team, u)]);
    }
  }

  lemma JuniorStays(db: Db, x: Write, m: Minted, y: Write, team: int, rank: int)
    requires Core(db) && Admits(db, x, m) && Frozen(db, Written(db, x, m), team, rank) && JuniorWrite(db, y, team, rank)
    ensures JuniorWrite(Written(db, x, m), y, team, rank)
  {
    var after := Written(db, x, m);
    forall r ensures IsSenior(after, team, rank, r) <==> IsSenior(db, team, rank, r) {
      SeniorSame(db, after, team, rank, r);
    }
    if y.PutInvite? && y.at.team == team {
      WrittenGrows(db, x, m);
      NotSeniorStays(db, after, y.at, rank, NewTeams(x, m), NewRoles(x, m));
    }
  }

  lemma SeniorsUninvitedStays(db: Db, x: Write, m: Minted, team: int, rank: int)
    requires Core(db) && SeniorsUninvited(db, team, rank) && Admits(db, x, m) && JuniorWrite(db, x, team, rank)
    requires Frozen(db, Written(db, x, m), team, rank)
    ensures SeniorsUninvited(Written(db, x, m), team, rank)
  {
    var after := Written(db, x, m);
    WrittenGrows(db, x, m);
    forall a | a in after.invites && a.team == team && Pending(after.invites[a]) ensures NotSenior(after, a, rank) {
      assert NotSenior(db, a, rank);
      NotSeniorStays(db, after, a, rank, NewTeams(x, m), NewRoles(x, m));
    }
  }

  lemma CommitCalm(r: Races, i: nat, m: Minted, team: int, rank: int)
    requires Calm(r, team, rank) && CanStep(r, Commit(i, m))
    ensures Calm(After(r, Commit(i, m)), team, rank) && Frozen(r.db, After(r, Commit(i, m)).db, team, rank)
  {
    var x := r.writes[i];
    assert x in r.writes;
    CommitSound(r, i, m);
    WrittenFreezes(r.db, x, m, team, rank);
    SeniorsUninvitedStays(r.db, x, m, team, rank);
    forall y | y in RemoveAt(r.writes, i) + Follow(x) ensures JuniorWrite(Written(r.db, x, m), y, team, rank) {
      if y in RemoveAt(r.writes, i) {
        assert y in r.writes;
        JuniorStays(r.db, x, m, y, team, rank);
      }
    }
  }

  ghost predicate JuniorBegins(r: Races, steps: seq<Step>, team: int, rank: int)
    requires LegalRaces(r, steps)
    decreases |steps|
  {
    steps == [] || (&& (steps[0].Begin? ==> Junior(r.db, steps[0].op, team, rank))
                    && JuniorBegins(After(r, steps[0]), steps[1..], team, rank))
  }

  /** The same under races: while everyone who starts an operation in the team ranks below R,
      however these operations overlap, no role at or above R is edited, deleted or created and
      nobody gains or loses one. */
  lemma {:induction false} SeniorsFrozenUnderRaces(r: Races, steps: seq<Step>, team: int, rank: int)
    requires Calm(r, team, rank) && LegalRaces(r, steps) && JuniorBegins(r, steps, team, rank)
    ensures Frozen(r.db, RunRaces(r, steps).db, team, rank)
    decreases |steps|
  {
    if steps != [] {
      match steps[0]
      case Begin(op) => BeginCalm(r, op, team, rank);
        SeniorsFrozenUnderRaces(After(r, steps[0]), steps[1..], team, rank);
      case Commit(i, m) => CommitCalm(r, i, m, team, rank);
        SeniorsFrozenUnderRaces(After(r, steps[0]), steps[1..], team, rank);
    }
  }

  /** A store between operations is such a starting point. */
  lemma QuietIsCalm(db: Db, team: int, rank: int)
    requires Inv(db) && OwnersUninvited(db) && team in db.teams && NoSeniorInvite(db, team, rank)
    ensures Calm(Races(db, []), team, rank)
  {
    forall a | a in db.invites && a.team == team && Pending(db.invites[a]) ensures NotSenior(db, a, rank) {
      assert !MemberAt(db, a);
    }
  }

  // ---- Invite tokens ----

  predicate IssuesToken(x: Write, token: string) {
    x.PutInvite? && x.invite.token == token
  }

  /** No write under way issues the token, and none is started. */
  predicate NoReissue(steps: seq<Step>, token: string) {
    forall i :: 0 <= i < |steps| && steps[i].Begin? ==> !Reissues(steps[i].op, token)
  }

  predicate SpentFor(r: Races, token: string) {
    Spent(r.db, token) && forall x :: x in r.writes ==> !IssuesToken(x, token)
  }

  lemma StepSpentFor(r: Races, t: Step, token: string)
    requires SpentFor(r, token) && CanStep(r, t) && (t.Begin? ==> !Reissues(t.op, token))
    ensures SpentFor(After(r, t), token)
  {
    match t
    case Begin(op) =>
    case Commit(i, m) =>
      assert r.writes[i] in r.writes;
      WrittenSpent(r.db, r.writes[i], m, token);
      assert forall y :: y in RemoveAt(r.writes, i) ==> y in r.writes;
  }

  lemma WrittenSpent(db: Db, x: Write, m: Minted, token: string)
    requires Spent(db, token) && Admits(db, x, m) && !IssuesToken(x, token)
    ensures Spent(Written(db, x, m), token)
  {
  }

  lemma {:induction false} RunSpentFor(r: Races, steps: seq<Step>, token: string)
    requires SpentFor(r, token) && LegalRaces(r, steps) && NoReissue(steps, token)
    ensures SpentFor(RunRaces(r, steps), token)
    decreases |steps|
  {
    if steps != [] {
      StepSpentFor(r, steps[0], token);
      RunSpentFor(After(r, steps[0]), steps[1..], token);
    }
  }

  /** What is left of "works once": a token that was accepted or revoked passes nobody's checks
      again. Only those can still join whose checks passed before. */
  lemma SpentTokenPassesNoCheck(r: Races, steps: seq<Step>, token: string, user: int, now: int)
    requires SpentFor(r, token) && LegalRaces(r, steps) && NoReissue(steps, token)
    ensures !CanStep(RunRaces(r, steps), Begin(Accepts(user, token, now)))
  {
    RunSpentFor(r, steps, token);
    SpentIsRefused(RunRaces(r, steps).db, user, token, now);
  }

  /** And they do: two accepts of one token that both checked first both join, and the second
      takes the update arm of the upsert. */
  lemma BothAcceptsJoin(db: Db, user: int, token: string, now: int, m: Minted)
    requires Inv(db) && Apply(db, Accepts(user, token, now)).Ok?
    ensures
      var op := Accepts(user, token, now);
      var r2 := After(After(Races(db, []), Begin(op)), Begin(op));
      && CanStep(r2, Commit(0, m)) && CanStep(After(r2, Commit(0, m)), Commit(0, m))
      && Seat(Named(db, token).value.team, user) in After(r2, Commit(0, m)).db.members
      && After(After(r2, Commit(0, m)), Commit(0, m)).db == After(r2, Commit(0, m)).db
  {
    AcceptAdmitted(db, user, token, now);
    var op := Accepts(user, token, now);
    var x := Plan(db, op);
    var r2 := After(After(Races(db, []), Begin(op)), Begin(op));
    assert r2.writes == [x, x];
    var r3 := After(r2, Commit(0, m));
    assert r3.writes == [x];
    var a := Named(db, token).value;
    var d1 := Written(db, x, m);
    assert Written(d1, x, m).members == d1.members && Written(d1, x, m).users == d1.users
      && Written(d1, x, m).invites == d1.invites;
  }

  // ---- Active teams ----

  predicate Dangles(db: Db, user: int) {
    user in db.users && db.users[user].active.Some? && Seat(db.users[user].active.value, user) !in db.members
  }

  /** Whoever is left on a team they do not belong to, a statement under way will clear it. */
  predicate Repairing(r: Races) {
    forall u :: u in r.db.users && Dangles(r.db, u) ==> ClearActive(u, r.db.users[u].active.value) in r.writes
  }

  /** A switch lands on a team the user still belongs to, or that is about to be cleared. */
  predicate SwitchCurrent(r: Races, t: Step)
    requires t.Commit? ==> t.i < |r.writes|
  {
    t.Commit? && r.writes[t.i].SetActive? ==>
      var x := r.writes[t.i];
      Seat(x.team, x.user) in r.db.members || ClearActive(x.user, x.team) in r.writes
  }

  /** Exactly when a switch leaves the user on a team they do not belong to, for good: the
      membership ended since its check, and the removal is through already. */
  lemma SwitchKeepsActiveIff(r: Races, i: nat, m: Minted)
    requires Repairing(r) && CanStep(r, Commit(i, m)) && r.writes[i].SetActive?
    ensures Repairing(After(r, Commit(i, m))) <==> SwitchCurrent(r, Commit(i, m))
  {
    var x := r.writes[i];
    var z := After(r, Commit(i, m));
    assert z.db.users[x.user].active == Some(x.team);
    ElsewhereStill(r, i);
    if SwitchCurrent(r, Commit(i, m)) {
      forall u | Dangles(z.db, u) ensures ClearActive(u, z.db.users[u].active.value) in z.writes {
        assert u != x.user ==> Dangles(r.db, u);
      }
    } else {
      assert Dangles(z.db, x.user);
    }
  }

  /** The other pending writes stay pending. */
  lemma ElsewhereStill(r: Races, i: nat)
    requires i < |r.writes|
    ensures forall y :: y in r.writes && y != r.writes[i] ==> y in RemoveAt(r.writes, i)
    ensures forall y :: y in RemoveAt(r.writes, i) ==> y in r.writes
  {
    assert r.writes == r.writes[..i] + [r.writes[i]] + r.writes[i + 1..];
  }

  /** No other write does. */
  lemma OthersKeepActive(r: Races, i: nat, m: Minted)
    requires MembersOk(r.db) && Repairing(r) && CanStep(r, Commit(i, m)) && !r.writes[i].SetActive?
    ensures Repairing(After(r, Commit(i, m)))
  {
    var x := r.writes[i];
    var z := After(r, Commit(i, m));
    ElsewhereStill(r, i);
    forall u | Dangles(z.db, u) ensures ClearActive(u, z.db.users[u].active.value) in z.writes {
      StillDangles(r.db, x, m, u);
    }
  }

  /** Who dangles after a write did before, or has just lost the seat. */
  lemma StillDangles(db: Db, x: Write, m: Minted, u: int)
    requires MembersOk(db) && Admits(db, x, m) && !x.SetActive? && Dangles(Written(db, x, m), u)
    ensures u in db.users && Written(db, x, m).users[u].active == db.users[u].active
    ensures Dangles(db, u) || (x.DropSeat? && x.seat == Seat(db.users[u].active.value, u))
    ensures x.ClearActive? && x.user == u ==> db.users[u].active != Some(x.team)
  {
  }

  ghost predicate SwitchesCurrent(r: Races, steps: seq<Step>)
    requires LegalRaces(r, steps)
    decreases |steps|
  {
    steps != [] ==> SwitchCurrent(r, steps[0]) && SwitchesCurrent(After(r, steps[0]), steps[1..])
  }

  /** So, over any interleaving in which no switch comes too late, once all writes are through
      every active team is one its user belongs to. */
  lemma {:induction false} ActiveOkWhenQuiet(r: Races, steps: seq<Step>)
    requires Sound(r) && Repairing(r) && LegalRaces(r, steps) && SwitchesCurrent(r, steps)
    ensures RunRaces(r, steps).writes == [] ==> ActiveOk(RunRaces(r, steps).db)
    decreases |steps|
  {
    if steps == [] {
      forall u | u in r.db.users && r.db.users[u].active.Some?
        ensures Seat(r.db.users[u].active.value, u) in r.db.members || r.writes != []
      {
        assert Dangles(r.db, u) || Seat(r.db.users[u].active.value, u) in r.db.members;
      }
    } else {
      StepRepairing(r, steps[0]);
      ActiveOkWhenQuiet(After(r, steps[0]), steps[1..]);
    }
  }

  lemma StepRepairing(r: Races, t: Step)
    requires Sound(r) && Repairing(r) && CanStep(r, t) && SwitchCurrent(r, t)
    ensures Sound(After(r, t)) && Repairing(After(r, t))
  {
    match t
    case Begin(op) =>
      BeginSound(r, op);
    case Commit(i, m) =>
      CommitSound(r, i, m);
      if r.writes[i].SetActive? {
        SwitchKeepsActiveIff(r, i, m);
      } else {
        OthersKeepActive(r, i, m);
      }
  }
}
