/** One alert row under concurrency (src/server/modules/alerts/alert.service.ts): a pass looks
    the row up and writes it later, passes overlap, and disabling the rule deletes the row in
    between. */
module AlertRaces {
  import opened Prelude
  import opened Alerts

  // ---- The row, and the writes under way ----

  /** A row created anew has a new id; a resolving update names the id it looked up. */
  datatype Stored = Stored(id: nat, row: Row)

  datatype Look = Look(found: Option<Stored>, r: Reading, version: nat)

  /** `written` are the readings stored since the row was last cleared and `notices` what each
      of them sent; `version` counts writes. */
  datatype State = State(
    stored: Option<Stored>, nextId: nat, looks: seq<Look>, written: seq<Reading>, notices: seq<Effect>,
    version: nat)

  const INITIAL := State(None, 0, [], [], [], 0)

  datatype Move = Looks(r: Reading) | Writes(i: nat) | Clears

  function RowOf(x: Option<Stored>): Option<Row> {
    if x.Some? then Some(x.value.row) else None
  }

  predicate Firing(x: Option<Stored>) {
    x.Some? && x.value.row.state == FIRING
  }

  predicate Fires(found: Option<Stored>, r: Reading, dwell: int) {
    r.breached && r.now - Since(RowOf(found), r.now) >= dwell && !Firing(found)
  }

  /** The upsert of a breached reading, decided on what was found and applied to what is there. */
  function Upserted(found: Option<Stored>, now: Option<Stored>, newId: nat, r: Reading, dwell: int): Stored {
    var since := Some(Since(RowOf(found), r.now));
    if Fires(found, r, dwell) then
      Stored(if now.Some? then now.value.id else newId, Row(FIRING, since, r.value, Some(r.now), None))
    else if now.Some? then
      Stored(now.value.id, Row(if Firing(found) then FIRING else OK, since, r.value,
                               now.value.row.firedAt, now.value.row.resolvedAt))
    else Stored(newId, Row(OK, since, r.value, None, None))
  }

  /** The write, and the notice sent after it. An update of a row that is gone fails. */
  function Put(found: Option<Stored>, now: Option<Stored>, newId: nat, r: Reading, dwell: int)
    : (Option<Stored>, Effect)
  {
    if r.breached then
      (Some(Upserted(found, now, newId, r, dwell)), if Fires(found, r, dwell) then Fired else Nothing)
    else if found.None? || now.None? || now.value.id != found.value.id then (now, Nothing)
    else
      var resolvedAt := if Firing(found) then Some(r.now) else now.value.row.resolvedAt;
      (Some(Stored(now.value.id, Row(OK, None, r.value, now.value.row.firedAt, resolvedAt))),
       if Firing(found) then Resolved else Nothing)
  }

  predicate Enabled(s: State, m: Move) {
    m.Writes? ==> m.i < |s.looks|
  }

  function Next(s: State, m: Move, dwell: int): State
    requires Enabled(s, m)
  {
    match m
    case Looks(r) => s.(looks := s.looks + [Look(s.stored, r, s.version)])
    case Clears => s.(stored := None, written := [], notices := [], version := s.version + 1)
    case Writes(i) =>
      var l := s.looks[i];
      var (row, e) := Put(l.found, s.stored, s.nextId, l.r, dwell);
      State(row, s.nextId + 1, RemoveAt(s.looks, i), s.written + [l.r], s.notices + [e], s.version + 1)
  }

  predicate Legal(s: State, moves: seq<Move>, dwell: int)
    decreases |moves|
  {
    moves == [] || (Enabled(s, moves[0]) && Legal(Next(s, moves[0], dwell), moves[1..], dwell))
  }

  function Run(s: State, moves: seq<Move>, dwell: int): State
    requires Legal(s, moves, dwell)
    decreases |moves|
  {
    if moves == [] then s else Run(Next(s, moves[0], dwell), moves[1..], dwell)
  }

  // ---- When a write is the atomic step ----

  /** The row already says what a healthy reading would make of it. */
  predicate Settled(x: Option<Stored>, r: Reading) {
    x.None? || (x.value.row.state == OK && x.value.row.since.None? && x.value.row.lastValue == r.value)
  }

  /** What was found decides as what is there would. */
  predicate Agrees(found: Option<Stored>, now: Option<Stored>, r: Reading, dwell: int) {
    if r.breached then
      && Since(RowOf(found), r.now) == Since(RowOf(now), r.now)
      && (Firing(found) == Firing(now) || (now.None? && r.now - Since(None, r.now) < dwell))
    else if found.Some? && now.Some? && found.value.id == now.value.id then Firing(found) == Firing(now)
    else Settled(now, r)
  }

  /** A write and its notice are those of the reading taken at once, if and only if so. */
  lemma PutIsStepIff(found: Option<Stored>, now: Option<Stored>, newId: nat, r: Reading, dwell: int)
    ensures
      var (row, e) := Put(found, now, newId, r, dwell);
      (RowOf(row), e) == Step(RowOf(now), r, dwell) <==> Agrees(found, now, r, dwell)
  {
    if r.breached {
      BreachedIsStepIff(found, now, newId, r, dwell);
    }
  }

  lemma BreachedIsStepIff(found: Option<Stored>, now: Option<Stored>, newId: nat, r: Reading, dwell: int)
    requires r.breached
    ensures
      var (row, e) := Put(found, now, newId, r, dwell);
      (RowOf(row), e) == Step(RowOf(now), r, dwell) <==> Agrees(found, now, r, dwell)
  {
    var (row, e) := Put(found, now, newId, r, dwell);
    var (atomic, f) := Step(RowOf(now), r, dwell);
    assert row.value.row.since == atomic.value.since <==> Since(RowOf(found), r.now) == Since(RowOf(now), r.now);
  }

  // ---- Over whole runs ----

  function Notified(rs: seq<Reading>, dwell: int): seq<Effect> {
    seq(|rs|, k requires 0 <= k < |rs| => EffectAt(rs, k, dwell))
  }

  /** The row and the notices are those of the readings stored since the last clearing. */
  predicate InSync(s: State, dwell: int) {
    RowOf(s.stored) == Fold(s.written, dwell) && s.notices == Notified(s.written, dwell)
  }

  predicate AlwaysInSync(s: State, moves: seq<Move>, dwell: int)
    requires Legal(s, moves, dwell)
    decreases |moves|
  {
    InSync(s, dwell) && (moves != [] ==> AlwaysInSync(Next(s, moves[0], dwell), moves[1..], dwell))
  }

  predicate Agreeing(s: State, m: Move, dwell: int)
    requires Enabled(s, m)
  {
    m.Writes? ==> Agrees(s.looks[m.i].found, s.stored, s.looks[m.i].r, dwell)
  }

  predicate AgreeingRun(s: State, moves: seq<Move>, dwell: int)
    requires Legal(s, moves, dwell)
    decreases |moves|
  {
    moves != [] ==> Agreeing(s, moves[0], dwell) && AgreeingRun(Next(s, moves[0], dwell), moves[1..], dwell)
  }

  lemma NotifiedMore(rs: seq<Reading>, r: Reading, dwell: int)
    ensures Notified(rs + [r], dwell) == Notified(rs, dwell) + [Step(Fold(rs, dwell), r, dwell).1]
    ensures Fold(rs + [r], dwell) == Step(Fold(rs, dwell), r, dwell).0
  {
    assert (rs + [r])[..|rs|] == rs;
    forall k | 0 <= k < |rs| ensures EffectAt(rs + [r], k, dwell) == EffectAt(rs, k, dwell) {
      assert (rs + [r])[..k] == rs[..k];
    }
  }

  lemma StepInSyncIff(s: State, m: Move, dwell: int)
    requires InSync(s, dwell) && Enabled(s, m)
    ensures InSync(Next(s, m, dwell), dwell) <==> Agreeing(s, m, dwell)
  {
    if m.Writes? {
      var l := s.looks[m.i];
      NotifiedMore(s.written, l.r, dwell);
      PutIsStepIff(l.found, s.stored, s.nextId, l.r, dwell);
      var e := Put(l.found, s.stored, s.nextId, l.r, dwell).1;
      LastsEqual(s.notices, e, Step(RowOf(s.stored), l.r, dwell).1);
    }
  }

  lemma LastsEqual<T>(a: seq<T>, x: T, y: T)
    ensures a + [x] == a + [y] <==> x == y
  {
    assert (a + [x])[|a|] == x && (a + [y])[|a|] == y;
  }

  /** Row and notices follow the readings throughout a run, however looks, writes and clearings
      interleave, if and only if every write found what still decides alike. */
  lemma {:induction false} InSyncIff(s: State, moves: seq<Move>, dwell: int)
    requires InSync(s, dwell) && Legal(s, moves, dwell)
    ensures AlwaysInSync(s, moves, dwell) <==> AgreeingRun(s, moves, dwell)
    decreases |moves|
  {
    if moves != [] {
      StepInSyncIff(s, moves[0], dwell);
      var t := Next(s, moves[0], dwell);
      if InSync(t, dwell) {
        InSyncIff(t, moves[1..], dwell);
      }
    }
  }

  // ---- Passes that do not overlap are such runs ----

  /** A look nothing was written after found what is there. */
  predicate LooksKnown(s: State) {
    forall l :: l in s.looks ==> l.version <= s.version && (l.version == s.version ==> l.found == s.stored)
  }

  /** No write came between a write and its look. */
  predicate FreshRun(s: State, moves: seq<Move>, dwell: int)
    requires Legal(s, moves, dwell)
    decreases |moves|
  {
    moves != [] ==>
      && (moves[0].Writes? ==> s.looks[moves[0].i].version == s.version)
      && FreshRun(Next(s, moves[0], dwell), moves[1..], dwell)
  }

  lemma StepLooksKnown(s: State, m: Move, dwell: int)
    requires LooksKnown(s) && Enabled(s, m)
    ensures LooksKnown(Next(s, m, dwell))
  {
    var t := Next(s, m, dwell);
    forall l | l in t.looks ensures l.version <= t.version && (l.version == t.version ==> l.found == t.stored) {
      assert l in s.looks || (m.Looks? && l == Look(s.stored, m.r, s.version));
    }
  }

  lemma {:induction false} FreshAgrees(s: State, moves: seq<Move>, dwell: int)
    requires LooksKnown(s) && Legal(s, moves, dwell) && FreshRun(s, moves, dwell)
    ensures AgreeingRun(s, moves, dwell)
    decreases |moves|
  {
    if moves != [] {
      StepLooksKnown(s, moves[0], dwell);
      if moves[0].Writes? {
        assert s.looks[moves[0].i] in s.looks;
      }
      FreshAgrees(Next(s, moves[0], dwell), moves[1..], dwell);
    }
  }

  /** So then, with clocks in order, the row describes the readings since the last clearing. */
  lemma FreshRowDescribes(moves: seq<Move>, dwell: int)
    requires Legal(INITIAL, moves, dwell) && FreshRun(INITIAL, moves, dwell)
    ensures
      var s := Run(INITIAL, moves, dwell);
      Monotone(s.written) ==> Describes(RowOf(s.stored), s.written, |s.written|, dwell)
  {
    FreshAgrees(INITIAL, moves, dwell);
    InSyncIff(INITIAL, moves, dwell);
    EndInSync(INITIAL, moves, dwell);
    var s := Run(INITIAL, moves, dwell);
    if Monotone(s.written) {
      RowDescribesHistory(s.written, |s.written|, dwell);
      assert s.written[..|s.written|] == s.written;
    }
  }

  lemma {:induction false} EndInSync(s: State, moves: seq<Move>, dwell: int)
    requires Legal(s, moves, dwell) && AlwaysInSync(s, moves, dwell)
    ensures InSync(Run(s, moves, dwell), dwell)
    decreases |moves|
  {
    if moves != [] {
      EndInSync(Next(s, moves[0], dwell), moves[1..], dwell);
    }
  }

  // ---- After a disable ----

  predicate NoClear(moves: seq<Move>) {
    forall m :: m in moves ==> !m.Clears?
  }

  /** From a deleted row on, whatever writes of earlier and later looks land: a row exists if and
      only if one of them was of a breached reading. */
  lemma {:induction false} ClearedIff(s: State, moves: seq<Move>, dwell: int)
    requires Legal(s, moves, dwell) && NoClear(moves)
    requires s.stored.Some? <==> exists j :: 0 <= j < |s.written| && s.written[j].breached
    ensures
      var z := Run(s, moves, dwell);
      z.stored.Some? <==> exists j :: 0 <= j < |z.written| && z.written[j].breached
    decreases |moves|
  {
    if moves != [] {
      assert moves[0] in moves;
      var t := Next(s, moves[0], dwell);
      if moves[0].Writes? {
        var r := s.looks[moves[0].i].r;
        assert t.written == s.written + [r];
        if j :| 0 <= j < |s.written| && s.written[j].breached {
          assert t.written[j].breached;
        }
        if r.breached {
          assert t.written[|s.written|].breached;
        }
      }
      ClearedIff(t, moves[1..], dwell);
    }
  }

  /** What such a late write leaves is a clean start only if the old row said nothing: the row
      takes over the beginning of the old stretch, and may fire at once. */
  lemma OldStretchSurvivesIff(x: Row, id: nat, r: Reading, dwell: int)
    requires r.breached && dwell > 0
    ensures
      var s := State(Some(Stored(id, x)), id + 1, [], [], [], 0);
      var moves := [Looks(r), Clears, Writes(0)];
      && Legal(s, moves, dwell)
      && Run(s, moves, dwell).stored.Some?
      && Run(s, moves, dwell).stored.value.row.since == Some(Since(Some(x), r.now))
      && Run(s, moves, dwell).notices
         == [if r.now - Since(Some(x), r.now) >= dwell && x.state != FIRING then Fired else Nothing]
      && (InSync(Run(s, moves, dwell), dwell) <==> Since(Some(x), r.now) == r.now)
  {
    var s := State(Some(Stored(id, x)), id + 1, [], [], [], 0);
    var s1 := Next(s, Looks(r), dwell);
    var s2 := Next(s1, Clears, dwell);
    var s3 := Next(s2, Writes(0), dwell);
    ThreeMoves(s, Looks(r), Clears, Writes(0), dwell);
    StepInSyncIff(s2, Writes(0), dwell);
  }

  lemma ThreeMoves(s: State, a: Move, b: Move, c: Move, dwell: int)
    requires Enabled(s, a) && Enabled(Next(s, a, dwell), b) && Enabled(Next(Next(s, a, dwell), b, dwell), c)
    ensures Legal(s, [a, b, c], dwell)
    ensures Run(s, [a, b, c], dwell) == Next(Next(Next(s, a, dwell), b, dwell), c, dwell)
  {
    var s1 := Next(s, a, dwell);
    var s2 := Next(s1, b, dwell);
    assert [c][1..] == [] && Legal(s2, [c], dwell) && Run(s2, [c], dwell) == Next(s2, c, dwell);
    assert [b, c][1..] == [c] && Legal(s1, [b, c], dwell) && Run(s1, [b, c], dwell) == Next(s2, c, dwell);
    assert [a, b, c][1..] == [b, c];
  }

  // ---- Passes at once ----

  /** The looks a run writes, in the order of the writes. */
  function Written(s: State, moves: seq<Move>, dwell: int): seq<Look>
    requires Legal(s, moves, dwell)
    decreases |moves|
  {
    if moves == [] then []
    else (if moves[0].Writes? then [s.looks[moves[0].i]] else []) + Written(Next(s, moves[0], dwell), moves[1..], dwell)
  }

  /** The notice a reading calls for on the row its look found. */
  function Alone(l: Look, dwell: int): Effect {
    Step(RowOf(l.found), l.r, dwell).1
  }

  function AllAlone(ls: seq<Look>, dwell: int): seq<Effect> {
    seq(|ls|, k requires 0 <= k < |ls| => Alone(ls[k], dwell))
  }

  /** The row a look found is still the one there. */
  predicate RowsThere(s: State) {
    forall l :: l in s.looks && l.found.Some? ==> s.stored.Some? && s.stored.value.id == l.found.value.id
  }

  lemma StepRowsThere(s: State, m: Move, dwell: int)
    requires RowsThere(s) && Enabled(s, m) && !m.Clears?
    ensures RowsThere(Next(s, m, dwell))
    ensures m.Writes? ==> Next(s, m, dwell).notices == s.notices + [Alone(s.looks[m.i], dwell)]
  {
    var t := Next(s, m, dwell);
    if m.Writes? {
      assert s.looks[m.i] in s.looks;
    }
    forall l | l in t.looks && l.found.Some? ensures t.stored.Some? && t.stored.value.id == l.found.value.id {
      assert l in s.looks || (m.Looks? && l == Look(s.stored, m.r, s.version));
    }
  }

  /** Over every interleaving of any number of passes, until the next clearing: each write
      notifies what its reading calls for on the row it found, whatever was written in between. */
  lemma {:induction false} EachNotifiesAlone(s: State, moves: seq<Move>, dwell: int)
    requires RowsThere(s) && Legal(s, moves, dwell) && NoClear(moves)
    ensures Run(s, moves, dwell).notices == s.notices + AllAlone(Written(s, moves, dwell), dwell)
    decreases |moves|
  {
    if moves != [] {
      assert moves[0] in moves;
      var t := Next(s, moves[0], dwell);
      StepRowsThere(s, moves[0], dwell);
      EachNotifiesAlone(t, moves[1..], dwell);
      if moves[0].Writes? {
        var rest := Written(t, moves[1..], dwell);
        assert AllAlone([s.looks[moves[0].i]] + rest, dwell)
            == [Alone(s.looks[moves[0].i], dwell)] + AllAlone(rest, dwell);
        Reassociate(s.notices, [Alone(s.looks[moves[0].i], dwell)], AllAlone(rest, dwell));
      } else {
        assert Written(s, moves, dwell) == Written(t, moves[1..], dwell);
      }
    }
  }

  /** So two writes of a run both fire, or both resolve, with or without the other notice between
      them, exactly when the rows they found were both due: a stretch may fire twice. */
  lemma NotifiedTwiceIff(s: State, moves: seq<Move>, i: nat, j: nat, e: Effect, dwell: int)
    requires RowsThere(s) && Legal(s, moves, dwell) && NoClear(moves) && e != Nothing
    requires i < j < |Written(s, moves, dwell)|
    ensures
      var sent, ls, n := Run(s, moves, dwell).notices, Written(s, moves, dwell), |s.notices|;
      && |sent| == n + |ls|
      && (sent[n + i] == e && sent[n + j] == e <==>
            if e == Fired then Fires(ls[i].found, ls[i].r, dwell) && Fires(ls[j].found, ls[j].r, dwell)
            else (Firing(ls[i].found) && !ls[i].r.breached) && (Firing(ls[j].found) && !ls[j].r.breached))
  {
    EachNotifiesAlone(s, moves, dwell);
    var ls := Written(s, moves, dwell);
    AloneIs(ls[i], dwell);
    AloneIs(ls[j], dwell);
  }

  lemma AloneIs(l: Look, dwell: int)
    ensures Alone(l, dwell) == Fired <==> Fires(l.found, l.r, dwell)
    ensures Alone(l, dwell) == Resolved <==> Firing(l.found) && !l.r.breached
  {
  }

  /** Two passes that look before either writes fire twice. */
  lemma StretchFiresTwice(x: Row, id: nat, r: Reading, q: Reading, dwell: int)
    requires Fires(Some(Stored(id, x)), r, dwell) && Fires(Some(Stored(id, x)), q, dwell)
    ensures
      var s := State(Some(Stored(id, x)), id + 1, [], [], [], 0);
      var s2 := Next(Next(s, Looks(r), dwell), Looks(q), dwell);
      Next(Next(s2, Writes(0), dwell), Writes(0), dwell).notices == [Fired, Fired]
  {
  }
}
