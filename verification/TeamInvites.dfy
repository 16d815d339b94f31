/** Invites and joins that overlap: when an invite is pending for a member, and when an accept
    overwrites a membership (src/server/modules/teams/team.service.ts:384-521). */
module TeamInvites {
  import opened Prelude
  import opened Teams
  import opened TeamInvariant
  import opened TeamRank
  import opened TeamRaces

  // ---- No invite is pending for a member ----

  /** An accept under way is one by the invited address. */
  predicate JoinsByInvited(r: Races) {
    forall x :: x in r.writes && x.Join? ==> x.user in r.db.users && r.db.users[x.user].email == x.at.email
  }

  predicate Clean(r: Races) {
    Sound(r) && Uninvited(r.db) && JoinsByInvited(r)
  }

  /** A pending invite is written only where no member is. */
  predicate InviteTimely(r: Races, t: Step)
    requires t.Commit? ==> t.i < |r.writes|
  {
    t.Commit? && r.writes[t.i].PutInvite? && Pending(r.writes[t.i].invite) ==> !MemberAt(r.db, r.writes[t.i].at)
  }

  lemma InviteKeepsUninvitedIff(db: Db, a: Address, i: Invite, m: Minted)
    requires Uninvited(db) && Admits(db, PutInvite(a, i), m)
    ensures Uninvited(Written(db, PutInvite(a, i), m)) <==> (Pending(i) ==> !MemberAt(db, a))
  {
    var after := Written(db, PutInvite(a, i), m);
    forall b ensures MemberAt(after, b) <==> MemberAt(db, b) {
    }
    assert a in after.invites && after.invites[a] == i;
  }

  /** A member at an address after a write was one before, or has just joined there. */
  lemma MembersBefore(db: Db, x: Write, m: Minted, a: Address)
    requires Core(db) && Admits(db, x, m) && a.team in db.teams && MemberAt(Written(db, x, m), a)
    requires x.Join? ==> db.users[x.user].email == x.at.email
    ensures MemberAt(db, a) || (x.Join? && x.at == a)
  {
    var after := Written(db, x, m);
    var u :| u in after.users && after.users[u].email == a.email && Seat(a.team, u) in after.members;
    if x.Join? && Seat(a.team, u) !in db.members {
      assert x.user == u && x.at == a;
    } else {
      SeatBefore(db, x, m, Seat(a.team, u));
      assert SeatFits(db, Seat(a.team, u), db.members[Seat(a.team, u)]);
      WrittenGrows(db, x, m);
    }
  }

  lemma SeatBefore(db: Db, x: Write, m: Minted, seat: Seat)
    requires Admits(db, x, m) && seat.team in db.teams && seat in Written(db, x, m).members
    ensures seat in db.members || (x.Join? && seat == Seat(x.at.team, x.user))
  {
  }

  /** Which invites are pending after a write other than an invitation. */
  lemma PendingBefore(db: Db, x: Write, m: Minted, a: Address)
    requires Admits(db, x, m) && !x.PutInvite? && a in Written(db, x, m).invites
    requires Pending(Written(db, x, m).invites[a])
    ensures a in db.invites && Pending(db.invites[a]) && !(x.Join? && x.at == a)
  {
  }

  lemma OtherWritesKeepUninvited(db: Db, x: Write, m: Minted)
    requires Core(db) && Uninvited(db) && Admits(db, x, m) && !x.PutInvite?
    requires x.Join? ==> db.users[x.user].email == x.at.email
    ensures Uninvited(Written(db, x, m))
  {
    var after := Written(db, x, m);
    forall a | a in after.invites && Pending(after.invites[a]) ensures !MemberAt(after, a) {
      PendingBefore(db, x, m, a);
      assert InviteFits(db, a, db.invites[a]) && !MemberAt(db, a);
      if MemberAt(after, a) {
        MembersBefore(db, x, m, a);
      }
    }
  }

  lemma JoinsStay(r: Races, i: nat, m: Minted)
    requires Sound(r) && JoinsByInvited(r) && CanStep(r, Commit(i, m))
    ensures JoinsByInvited(After(r, Commit(i, m)))
  {
    var x := r.writes[i];
    var z := After(r, Commit(i, m));
    WrittenGrows(r.db, x, m);
    UsersStay(r.db, x, m);
    forall y | y in z.writes && y.Join? ensures y.user in z.db.users && z.db.users[y.user].email == y.at.email {
      assert y in RemoveAt(r.writes, i);
      assert y in r.writes;
    }
  }

  lemma UsersStay(db: Db, x: Write, m: Minted)
    requires Admits(db, x, m)
    ensures forall u :: u in db.users ==> u in Written(db, x, m).users
  {
  }

  lemma StepCleanIff(r: Races, t: Step)
    requires Clean(r) && CanStep(r, t)
    ensures Clean(After(r, t)) <==> InviteTimely(r, t)
  {
    match t
    case Begin(op) =>
      BeginSound(r, op);
      if op.Accepts? {
        AcceptedByInvited(r.db, op.user, op.token, op.now);
      }
    case Commit(i, m) =>
      var x := r.writes[i];
      assert x in r.writes;
      CommitSound(r, i, m);
      JoinsStay(r, i, m);
      if x.PutInvite? {
        InviteKeepsUninvitedIff(r.db, x.at, x.invite, m);
      } else {
        OtherWritesKeepUninvited(r.db, x, m);
      }
  }

  lemma AcceptedByInvited(db: Db, user: int, token: string, now: int)
    requires Core(db) && Apply(db, Accepts(user, token, now)).Ok?
    ensures
      var x := Plan(db, Accepts(user, token, now));
      && x.Join? && x.user == user && user in db.users && db.users[user].email == x.at.email
      && x.at in db.invites && Pending(db.invites[x.at]) && x.at.team in db.teams
  {
    var a := Named(db, token).value;
    assert InviteFits(db, a, db.invites[a]);
    assert Lower(db.users[user].email) == db.users[user].email;
  }

  ghost predicate InvitesTimely(r: Races, steps: seq<Step>)
    requires LegalRaces(r, steps)
    decreases |steps|
  {
    steps != [] ==> InviteTimely(r, steps[0]) && InvitesTimely(After(r, steps[0]), steps[1..])
  }

  ghost predicate AlwaysClean(r: Races, steps: seq<Step>)
    requires LegalRaces(r, steps)
    decreases |steps|
  {
    Clean(r) && (steps != [] ==> AlwaysClean(After(r, steps[0]), steps[1..]))
  }

  /** Over any interleaving: throughout, no invite is pending for a member, if and only if every
      invitation is written while nobody at its address is one. */
  lemma {:induction false} AlwaysCleanIff(r: Races, steps: seq<Step>)
    requires Clean(r) && LegalRaces(r, steps)
    ensures AlwaysClean(r, steps) <==> InvitesTimely(r, steps)
    decreases |steps|
  {
    if steps != [] {
      StepCleanIff(r, steps[0]);
      if InviteTimely(r, steps[0]) {
        AlwaysCleanIff(After(r, steps[0]), steps[1..]);
      }
    }
  }

  lemma {:induction false} CleanAtEnd(r: Races, steps: seq<Step>)
    requires LegalRaces(r, steps) && AlwaysClean(r, steps)
    ensures Clean(RunRaces(r, steps))
    decreases |steps|
  {
    if steps != [] {
      CleanAtEnd(After(r, steps[0]), steps[1..]);
    }
  }

  // ---- What an accept sees, and what its write finds ----

  function SeatOf(x: Write): Seat
    requires x.Join?
  {
    Seat(x.at.team, x.user)
  }

  /** In such states nobody passes the checks of an accept who is a member already. */
  lemma AcceptSeesFreeSeat(r: Races, user: int, token: string, now: int)
    requires Clean(r) && CanStep(r, Begin(Accepts(user, token, now)))
    ensures
      var x := Plan(r.db, Accepts(user, token, now));
      x.Join? && x.user == user && x.at.team in r.db.teams && SeatOf(x) !in r.db.members
  {
    AcceptedByInvited(r.db, user, token, now);
    var x := Plan(r.db, Accepts(user, token, now));
    assert !MemberAt(r.db, x.at);
  }

  predicate TakesSeat(r: Races, t: Step, seat: Seat)
    requires t.Commit? ==> t.i < |r.writes|
  {
    t.Commit? && r.writes[t.i].Join? && SeatOf(r.writes[t.i]) == seat
  }

  predicate FreesSeat(r: Races, t: Step, seat: Seat)
    requires t.Commit? ==> t.i < |r.writes|
  {
    t.Commit? && (r.writes[t.i] == DropSeat(seat) || r.writes[t.i] == DropTeam(seat.team))
  }

  /** Another accept by the user into the team was written, and nothing has freed the seat since. */
  ghost predicate TakenSince(r: Races, steps: seq<Step>, seat: Seat)
    requires LegalRaces(r, steps)
    decreases |steps|
  {
    steps != [] &&
    (|| TakenSince(After(r, steps[0]), steps[1..], seat)
     || (TakesSeat(r, steps[0], seat) && NotFreed(After(r, steps[0]), steps[1..], seat)))
  }

  ghost predicate NotFreed(r: Races, steps: seq<Step>, seat: Seat)
    requires LegalRaces(r, steps)
    decreases |steps|
  {
    steps != [] ==> !FreesSeat(r, steps[0], seat) && NotFreed(After(r, steps[0]), steps[1..], seat)
  }

  /** The accept's write is still to come after every step. */
  ghost predicate UnderWay(r: Races, steps: seq<Step>, x: Write)
    requires LegalRaces(r, steps)
    decreases |steps|
  {
    x in r.writes && (steps != [] ==> UnderWay(After(r, steps[0]), steps[1..], x))
  }

  lemma StepSeat(r: Races, t: Step, x: Write)
    requires CanStep(r, t) && x.Join? && x in r.writes
    ensures
      var seat := SeatOf(x);
      seat in After(r, t).db.members <==> TakesSeat(r, t, seat) || (seat in r.db.members && !FreesSeat(r, t, seat))
  {
    if t.Commit? {
      assert NewFor(r.writes[t.i], x, t.m);
    }
  }

  lemma {:induction false} SeatAfter(r: Races, steps: seq<Step>, x: Write)
    requires LegalRaces(r, steps) && x.Join? && UnderWay(r, steps, x)
    ensures
      var seat := SeatOf(x);
      seat in RunRaces(r, steps).db.members <==>
        TakenSince(r, steps, seat) || (seat in r.db.members && NotFreed(r, steps, seat))
    decreases |steps|
  {
    if steps != [] {
      StepSeat(r, steps[0], x);
      SeatAfter(After(r, steps[0]), steps[1..], x);
    }
  }

  /** Where invitations are timely, an accept whose checks passed overwrites a membership, if and
      only if another accept by the same user into the team was written since its checks and
      nothing has freed the seat again. Otherwise its write creates the membership. */
  lemma JoinOverwritesIff(r0: Races, before: seq<Step>, user: int, token: string, now: int, steps: seq<Step>)
    requires Clean(r0) && LegalRaces(r0, before) && InvitesTimely(r0, before)
    requires CanStep(RunRaces(r0, before), Begin(Accepts(user, token, now)))
    requires
      var r := After(RunRaces(r0, before), Begin(Accepts(user, token, now)));
      LegalRaces(r, steps) && UnderWay(r, steps, Plan(RunRaces(r0, before).db, Accepts(user, token, now)))
    ensures
      var r := After(RunRaces(r0, before), Begin(Accepts(user, token, now)));
      var x := Plan(RunRaces(r0, before).db, Accepts(user, token, now));
      x.Join? && (SeatOf(x) in RunRaces(r, steps).db.members <==> TakenSince(r, steps, SeatOf(x)))
  {
    AlwaysCleanIff(r0, before);
    CleanAtEnd(r0, before);
    AcceptSeesFreeSeat(RunRaces(r0, before), user, token, now);
    var x := Plan(RunRaces(r0, before).db, Accepts(user, token, now));
    SeatAfter(After(RunRaces(r0, before), Begin(Accepts(user, token, now))), steps, x);
  }

  // ---- Where an invitation comes late ----

  /** Somebody who is a member already can pass the checks of an accept if and only if an invite
      is pending for a member. */
  lemma MemberMayAcceptIff(db: Db)
    requires Core(db)
    ensures (exists user, token, now :: MemberAccepts(db, user, token, now)) <==> !Uninvited(db)
  {
    if a :| a in db.invites && Pending(db.invites[a]) && MemberAt(db, a) {
      var u :| u in db.users && db.users[u].email == a.email && Seat(a.team, u) in db.members;
      var i := db.invites[a];
      NamedIs(db, a);
      assert Lower(db.users[u].email) == a.email;
      assert MemberAccepts(db, u, i.token, i.expiresAt);
    } else {
      forall user, token, now ensures !MemberAccepts(db, user, token, now) {
        if Apply(db, Accepts(user, token, now)).Ok? {
          AcceptedByInvited(db, user, token, now);
          assert !MemberAt(db, Plan(db, Accepts(user, token, now)).at);
        }
      }
    }
  }

  ghost predicate MemberAccepts(db: Db, user: int, token: string, now: int) {
    && Apply(db, Accepts(user, token, now)).Ok?
    && Seat(Plan(db, Accepts(user, token, now)).at.team, user) in db.members
  }

  lemma NamedIs(db: Db, a: Address)
    requires TokensUnique(db) && a in db.invites
    ensures Named(db, db.invites[a].token) == Some(a)
  {
  }

  /** The address of invitation x is a member's by the time it is written. */
  lemma JoinedThenInvited(db: Db, x: Write, y: Write, m: Minted)
    requires x.PutInvite? && y.Join? && y.at == x.at && Admits(db, y, m) && FreshToken(db, x.invite.token)
    requires x.invite.roleId in db.roles && db.users[y.user].email == x.at.email
    ensures
      var d1 := Written(db, y, m);
      && MemberAt(d1, x.at) && Admits(d1, x, m)
      && var d2 := Written(d1, x, m);
      SeatOf(y) in d2.members && Reissued(d2, x, y.user)
  {
    var d1 := Written(db, y, m);
    assert d1.users[y.user].email == x.at.email && SeatOf(y) in d1.members;
  }

  /** The invite stands as written, its token names it alone, and the user has its address. */
  predicate Reissued(d: Db, x: Write, user: int)
    requires x.PutInvite?
  {
    && x.at in d.invites && d.invites[x.at] == x.invite && x.at.team in d.teams && x.invite.roleId in d.roles
    && (forall b :: b in d.invites && b != x.at ==> d.invites[b].token != x.invite.token)
    && user in d.users && d.users[user].email == x.at.email
  }

  lemma LateAccept(d: Db, x: Write, user: int, later: int, m: Minted)
    requires x.PutInvite? && Reissued(d, x, user) && Pending(x.invite) && later <= x.invite.expiresAt
    requires Lower(x.at.email) == x.at.email
    ensures
      var op := Accepts(user, x.invite.token, later);
      && Apply(d, op).Ok? && Plan(d, op) == Join(x.at, user, x.invite.roleId) && Admits(d, Plan(d, op), m)
      && Written(d, Plan(d, op), m).members == d.members[Seat(x.at.team, user) := x.invite.roleId]
  {
    assert Named(d, x.invite.token) == Some(x.at);
  }

  lemma InvitePlanned(db: Db, invite: Op)
    requires invite.Invites? && Apply(db, invite).Ok?
    ensures
      var x := Plan(db, invite);
      && x.PutInvite? && x.at == Address(invite.team, Normalise(invite.email)) && x.invite.roleId == invite.id
      && x.invite.token == invite.token && Pending(x.invite) && x.invite.expiresAt == invite.now + INVITE_MS
      && invite.id in db.roles
  {
  }

  /** The join lands first, then the invitation, and the addressee accepts that one as well. */
  ghost predicate Overtaken(r: Races, user: int, x: Write, later: int, m: Minted)
    requires x.PutInvite?
  {
    && CanStep(r, Commit(1, m)) && CanStep(After(r, Commit(1, m)), Commit(0, m))
    && !InviteTimely(After(r, Commit(1, m)), Commit(0, m))
    && var r4 := After(After(r, Commit(1, m)), Commit(0, m));
    && Seat(x.at.team, user) in r4.db.members
    && CanStep(r4, Begin(Accepts(user, x.invite.token, later)))
    && var r5 := After(r4, Begin(Accepts(user, x.invite.token, later)));
    && |r5.writes| == 1 && CanStep(r5, Commit(0, m))
    && After(r5, Commit(0, m)).db.members == r4.db.members[Seat(x.at.team, user) := x.invite.roleId]
  }

  lemma LateRun(db: Db, x: Write, y: Write, later: int, m: Minted)
    requires x.PutInvite? && y.Join? && y.at == x.at && Admits(db, y, m) && FreshToken(db, x.invite.token)
    requires x.invite.roleId in db.roles && db.users[y.user].email == x.at.email
    requires Pending(x.invite) && later <= x.invite.expiresAt && Lower(x.at.email) == x.at.email
    ensures Overtaken(Races(db, [x, y]), y.user, x, later, m)
  {
    var r2 := Races(db, [x, y]);
    JoinedThenInvited(db, x, y, m);
    var r3 := After(r2, Commit(1, m));
    assert r3.writes == [x];
    var r4 := After(r3, Commit(0, m));
    assert r4.writes == [];
    LateAccept(r4.db, x, y.user, later, m);
    var r5 := After(r4, Begin(Accepts(y.user, x.invite.token, later)));
    assert r5.writes == [Join(x.at, y.user, x.invite.roleId)];
  }

  /** And that state is reached: an invitation whose checks passed before its addressee joined is
      written afterwards. Its token then passes the checks, and the write takes the update arm
      and gives the member its role, although nobody joined since those checks. */
  lemma LateInviteOverwrites(db: Db, invite: Op, user: int, token: string, now: int, later: int, m: Minted)
    requires Inv(db) && invite.Invites? && Fresh(db, invite) && Apply(db, invite).Ok?
    requires Apply(db, Accepts(user, token, now)).Ok? && later <= invite.now + INVITE_MS
    requires Plan(db, Accepts(user, token, now)).at == Address(invite.team, Normalise(invite.email))
    ensures
      var r2 := After(After(Races(db, []), Begin(invite)), Begin(Accepts(user, token, now)));
      var x := Plan(db, invite);
      x.PutInvite? && x.invite.token == invite.token && x.invite.roleId == invite.id
      && Overtaken(r2, user, x, later, m)
  {
    AcceptAdmitted(db, user, token, now);
    AcceptedByInvited(db, user, token, now);
    InvitePlanned(db, invite);
    var x, y := Plan(db, invite), Plan(db, Accepts(user, token, now));
    var r2 := After(After(Races(db, []), Begin(invite)), Begin(Accepts(user, token, now)));
    assert r2.writes == [x, y];
    LateRun(db, x, y, later, m);
  }
}
