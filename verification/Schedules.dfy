/** Scheduled commands (src/server/modules/schedules/schedule.service.ts): any number of
    workers claim a due occurrence by compare-and-set on `nextRunAt` while users pause and
    resume. `setScheduleStatus` computes the next run first and writes it later. */
module Schedules {
  import opened Prelude

  // ---- Cron, abstractly ----

  /** `next(t)` is the least matching instant strictly after t. */
  ghost predicate IsNext(matches: int -> bool, next: int -> int) {
    forall t :: next(t) > t && matches(next(t)) && (forall u :: t < u < next(t) ==> !matches(u))
  }

  /** There are such schedules: every ten, say. */
  lemma EveryTen(matches: int -> bool, next: int -> int)
    requires forall t :: matches(t) <==> t % 10 == 0
    requires forall t :: next(t) == t - t % 10 + 10
    ensures IsNext(matches, next)
  {
  }

  lemma NextIsLeast(matches: int -> bool, next: int -> int, t: int, u: int)
    requires IsNext(matches, next) && t < u && matches(u)
    ensures t < next(t) <= u
  {
  }

  // ---- One schedule under concurrency ----

  datatype Row = Row(active: bool, nextRunAt: Option<int>)

  /** `slot` is the occurrence claimed, `at` the claiming pass's clock reading. */
  datatype Claim = Claim(slot: int, at: int)

  /** A worker between its query and its compare-and-set; `version` counts the row's writes
      and exists only in the model. */
  datatype Snapshot = Snapshot(slot: int, now: int, version: nat)

  datatype State = State(
    row: Row, clock: int, snapshots: seq<Snapshot>, resuming: seq<int>, claims: seq<Claim>, version: nat)

  datatype Step =
    | Tick(to: int)
    | Query(now: int)       // findMany, with the pass's earlier clock reading
    | TryClaim(i: nat)      // updateMany where nextRunAt is unchanged
    | ComputeResume         // nextRun(cron), before the update is sent
    | CommitResume(i: nat)
    | Pause

  predicate Enabled(s: State, t: Step) {
    match t
    case Tick(to) => s.clock <= to
    case Query(now) => now <= s.clock && s.row.active && s.row.nextRunAt.Some? && s.row.nextRunAt.value <= now
    case TryClaim(i) => i < |s.snapshots|
    case ComputeResume => true
    case CommitResume(i) => i < |s.resuming|
    case Pause => true
  }

  predicate Claims(s: State, t: Step)
    requires Enabled(s, t)
  {
    t.TryClaim? && s.row.nextRunAt == Some(s.snapshots[t.i].slot)
  }

  function Next(s: State, t: Step, next: int -> int): State
    requires Enabled(s, t)
  {
    match t
    case Tick(to) => s.(clock := to)
    case Query(now) => s.(snapshots := s.snapshots + [Snapshot(s.row.nextRunAt.value, now, s.version)])
    case TryClaim(i) =>
      var p := s.snapshots[i];
      var s' := s.(snapshots := RemoveAt(s.snapshots, i));
      if Claims(s, t)
      then s'.(row := s.row.(nextRunAt := Some(next(p.now))), claims := s.claims + [Claim(p.slot, p.now)],
               version := s.version + 1)
      else s'
    case ComputeResume => s.(resuming := s.resuming + [next(s.clock)])
    case CommitResume(i) =>
      s.(row := Row(true, Some(s.resuming[i])), resuming := RemoveAt(s.resuming, i), version := s.version + 1)
    case Pause => s.(row := Row(false, None), version := s.version + 1)
  }

  /** The steps of a pass, a pause and a resume, on the row itself: a query reads a due instant of an
      active schedule, the compare-and-set moves it on if it is unchanged, a pause clears it, a resume
      is computed from the clock and written as it was computed. */
  lemma StepsMean(s: State, now: int, i: nat, next: int -> int)
    ensures Enabled(s, Query(now)) <==>
      now <= s.clock && s.row.active && s.row.nextRunAt.Some? && s.row.nextRunAt.value <= now
    ensures Enabled(s, Query(now)) ==>
      && Next(s, Query(now), next).row == s.row
      && Next(s, Query(now), next).snapshots == s.snapshots + [Snapshot(s.row.nextRunAt.value, now, s.version)]
    ensures i < |s.snapshots| ==>
      var p, z := s.snapshots[i], Next(s, TryClaim(i), next);
      if s.row.nextRunAt == Some(p.slot)
      then z.row == Row(s.row.active, Some(next(p.now))) && z.claims == s.claims + [Claim(p.slot, p.now)]
      else z.row == s.row && z.claims == s.claims
    ensures Enabled(s, Pause) && Next(s, Pause, next) == s.(row := Row(false, None), version := s.version + 1)
    ensures Enabled(s, ComputeResume) && Next(s, ComputeResume, next) == s.(resuming := s.resuming + [next(s.clock)])
    ensures i < |s.resuming| ==> Next(s, CommitResume(i), next).row == Row(true, Some(s.resuming[i]))
    ensures now >= s.clock ==> Enabled(s, Tick(now)) && Next(s, Tick(now), next) == s.(clock := now)
  {
  }

  predicate Legal(s: State, steps: seq<Step>, next: int -> int)
    decreases |steps|
  {
    steps == [] || (Enabled(s, steps[0]) && Legal(Next(s, steps[0], next), steps[1..], next))
  }

  function Run(s: State, steps: seq<Step>, next: int -> int): State
    requires Legal(s, steps, next)
    decreases |steps|
  {
    if steps == [] then s else Run(Next(s, steps[0], next), steps[1..], next)
  }

  function Created(now: int, next: int -> int): State {
    State(Row(true, Some(next(now))), now, [], [], [], 0)
  }

  // ---- What every step keeps ----

  /** Claims take due instants, and everything stored is an instant after the creation. */
  ghost predicate Base(s: State, start: int, matches: int -> bool) {
    && start <= s.clock
    && (s.row.nextRunAt.Some? ==> start < s.row.nextRunAt.value && matches(s.row.nextRunAt.value))
    && (forall n :: n in s.resuming ==> start < n && matches(n))
    && (forall p :: p in s.snapshots ==>
          start < p.slot <= p.now <= s.clock && matches(p.slot) && p.version <= s.version)
    && (forall c :: c in s.claims ==> start < c.slot <= c.at <= s.clock && matches(c.slot))
  }

  lemma StepBase(s: State, t: Step, start: int, matches: int -> bool, next: int -> int)
    requires IsNext(matches, next) && Base(s, start, matches) && Enabled(s, t)
    ensures Base(Next(s, t, next), start, matches)
  {
    var s' := Next(s, t, next);
    match t {
      case TryClaim(i) =>
        assert s.snapshots[i] in s.snapshots;
        assert forall p :: p in s'.snapshots ==> p in s.snapshots;
      case CommitResume(i) =>
        assert s.resuming[i] in s.resuming;
        assert forall n :: n in s'.resuming ==> n in s.resuming;
      case _ =>
    }
  }

  lemma {:induction false} RunBase(s: State, steps: seq<Step>, start: int, matches: int -> bool, next: int -> int)
    requires IsNext(matches, next) && Base(s, start, matches) && Legal(s, steps, next)
    ensures Base(Run(s, steps, next), start, matches)
    decreases |steps|
  {
    if steps != [] {
      StepBase(s, steps[0], start, matches, next);
      RunBase(Next(s, steps[0], next), steps[1..], start, matches, next);
    }
  }

  // ---- Each occurrence is claimed at most once ----

  /** A resume writes an instant later than every instant claimed so far. */
  predicate AboveClaims(s: State, t: Step)
    requires Enabled(s, t)
  {
    t.CommitResume? ==> forall c :: c in s.claims ==> c.slot < s.resuming[t.i]
  }

  predicate AboveClaimsRun(s: State, steps: seq<Step>, next: int -> int)
    requires Legal(s, steps, next)
    decreases |steps|
  {
    steps == [] || (AboveClaims(s, steps[0]) && AboveClaimsRun(Next(s, steps[0], next), steps[1..], next))
  }

  /** Claims are in increasing order, and the row is past all of them. */
  predicate Ascending(s: State) {
    && (forall i, j :: 0 <= i < j < |s.claims| ==> s.claims[i].slot < s.claims[j].slot)
    && (s.row.nextRunAt.Some? ==> forall c :: c in s.claims ==> c.slot < s.row.nextRunAt.value)
  }

  lemma StepAscending(s: State, t: Step, start: int, matches: int -> bool, next: int -> int)
    requires IsNext(matches, next) && Base(s, start, matches) && Ascending(s) && Enabled(s, t) && AboveClaims(s, t)
    ensures Ascending(Next(s, t, next))
  {
    if t.TryClaim? {
      assert s.snapshots[t.i] in s.snapshots;
      assert forall k :: 0 <= k < |s.claims| ==> s.claims[k] in s.claims;
    }
  }

  lemma {:induction false} RunAscending(s: State, steps: seq<Step>, start: int, matches: int -> bool, next: int -> int)
    requires IsNext(matches, next) && Base(s, start, matches) && Ascending(s)
    requires Legal(s, steps, next) && AboveClaimsRun(s, steps, next)
    ensures Base(Run(s, steps, next), start, matches) && Ascending(Run(s, steps, next))
    decreases |steps|
  {
    if steps != [] {
      StepBase(s, steps[0], start, matches, next);
      StepAscending(s, steps[0], start, matches, next);
      RunAscending(Next(s, steps[0], next), steps[1..], start, matches, next);
    }
  }

  /** Any number of racing workers, pauses and resumes: while each resume lands on an instant
      past the claimed ones, however late, no occurrence is claimed twice. */
  lemma EachSlotClaimedOnce(start: int, steps: seq<Step>, matches: int -> bool, next: int -> int)
    requires IsNext(matches, next)
    requires Legal(Created(start, next), steps, next) && AboveClaimsRun(Created(start, next), steps, next)
    ensures
      var claims := Run(Created(start, next), steps, next).claims;
      forall i, j :: 0 <= i < j < |claims| ==> claims[i].slot < claims[j].slot
  {
    RunAscending(Created(start, next), steps, start, matches, next);
  }

  /** There are never more claims than cron instants since the schedule was created. */
  lemma ClaimsBounded(s: State, start: int, matches: int -> bool)
    requires Base(s, start, matches) && Ascending(s)
    ensures |s.claims| <= |set t | start < t <= s.clock && matches(t)|
  {
    var slots := seq(|s.claims|, i requires 0 <= i < |s.claims| => s.claims[i].slot);
    DistinctCard(slots);
    var instants := set t | start < t <= s.clock && matches(t);
    forall x | x in Elems(slots) ensures x in instants {
      var i :| 0 <= i < |slots| && slots[i] == x;
      assert s.claims[i] in s.claims;
    }
    SubsetCard(Elems(slots), instants);
  }

  // ---- And only then ----

  predicate Repeated(claims: seq<Claim>) {
    exists i, j :: 0 <= i < j < |claims| && claims[i].slot == claims[j].slot
  }

  /** No further resume is written. */
  predicate NoResume(steps: seq<Step>) {
    forall i :: 0 <= i < |steps| ==> !steps[i].CommitResume?
  }

  lemma {:induction false} NoResumeIsAbove(s: State, steps: seq<Step>, next: int -> int)
    requires Legal(s, steps, next) && NoResume(steps)
    ensures AboveClaimsRun(s, steps, next) && AboveReadsRun(s, steps, next) && AbovePassesRun(s, steps, next)
    decreases |steps|
  {
    if steps != [] {
      NoResumeIsAbove(Next(s, steps[0], next), steps[1..], next);
    }
  }

  lemma RunCons(s: State, t: Step, rest: seq<Step>, next: int -> int)
    requires Enabled(s, t) && Legal(Next(s, t, next), rest, next)
    ensures Legal(s, [t] + rest, next) && Run(s, [t] + rest, next) == Run(Next(s, t, next), rest, next)
  {
    assert ([t] + rest)[1..] == rest;
  }

  /** One undisturbed pass: its query and its compare-and-set. */
  function PassSteps(s: State, now: int): seq<Step> {
    [Query(now)] + ([TryClaim(|s.snapshots|)] + [])
  }

  lemma PassClaims(s: State, now: int, next: int -> int)
    requires Enabled(s, Query(now))
    ensures Legal(s, PassSteps(s, now), next) && NoResume(PassSteps(s, now))
    ensures
      var slot := s.row.nextRunAt.value;
      Run(s, PassSteps(s, now), next)
        == s.(row := s.row.(nextRunAt := Some(next(now))), claims := s.claims + [Claim(slot, now)],
                version := s.version + 1)
  {
    var s1 := Next(s, Query(now), next);
    var p := Snapshot(s.row.nextRunAt.value, now, s.version);
    assert s1.snapshots == s.snapshots + [p] && RemoveAt(s1.snapshots, |s.snapshots|) == s.snapshots;
    RunCons(s1, TryClaim(|s.snapshots|), [], next);
    RunCons(s, Query(now), [TryClaim(|s.snapshots|)] + [], next);
  }

  lemma {:induction false} RunAppend(s: State, a: seq<Step>, b: seq<Step>, next: int -> int)
    requires Legal(s, a, next) && Legal(Run(s, a, next), b, next)
    ensures Legal(s, a + b, next) && Run(s, a + b, next) == Run(Run(s, a, next), b, next)
    decreases |a|
  {
    if a == [] {
      assert a + b == b;
    } else {
      RunAppend(Next(s, a[0], next), a[1..], b, next);
      assert (a + b)[1..] == a[1..] + b;
    }
  }

  /** From a row at v, undisturbed passes bring the row to any later instant n that is due:
      at once, or by one claim of v. */
  lemma ReachInstant(s: State, n: int, matches: int -> bool, next: int -> int) returns (steps: seq<Step>)
    requires IsNext(matches, next) && s.row.active && s.row.nextRunAt.Some?
    requires s.row.nextRunAt.value <= n <= s.clock && matches(n)
    ensures Legal(s, steps, next) && NoResume(steps)
    ensures
      var z := Run(s, steps, next);
      && z.row == Row(true, Some(n)) && z.clock == s.clock && z.snapshots == s.snapshots
      && s.claims <= z.claims && z.version >= s.version
  {
    if s.row.nextRunAt.value == n {
      steps := [];
    } else {
      steps := PassSteps(s, n - 1);
      PassClaims(s, n - 1, next);
      assert next(n - 1) == n;
    }
  }

  /** If a resume lands at or before a claimed instant, passes that nothing disturbs claim
      that instant again. */
  lemma LateResumeReclaims(s: State, i: nat, c: Claim, start: int, matches: int -> bool, next: int -> int)
    returns (steps: seq<Step>)
    requires IsNext(matches, next) && Base(s, start, matches) && i < |s.resuming|
    requires c in s.claims && s.resuming[i] <= c.slot
    ensures Legal(Next(s, CommitResume(i), next), steps, next) && NoResume(steps)
    ensures Repeated(Run(Next(s, CommitResume(i), next), steps, next).claims)
  {
    var s1 := Next(s, CommitResume(i), next);
    var first := ReachInstant(s1, c.slot, matches, next);
    var s2 := Run(s1, first, next);
    var second := PassSteps(s2, s2.clock);
    PassClaims(s2, s2.clock, next);
    RunAppend(s1, first, second, next);
    steps := first + second;
    var claims := Run(s1, steps, next).claims;
    var k :| 0 <= k < |s.claims| && s.claims[k] == c;
    assert claims[k] == c && claims[|claims| - 1] == Claim(c.slot, s2.clock);
    assert claims[k].slot == claims[|claims| - 1].slot;
  }

  /** The exact condition: after a resume is written, some way for the rest to interleave
      claims an occurrence twice if and only if the resume landed at or before a claimed one. */
  lemma RepeatsIff(s: State, i: nat, start: int, matches: int -> bool, next: int -> int)
    requires IsNext(matches, next) && Base(s, start, matches) && Ascending(s) && i < |s.resuming|
    ensures
      var s1 := Next(s, CommitResume(i), next);
      (exists steps :: Legal(s1, steps, next) && NoResume(steps) && Repeated(Run(s1, steps, next).claims))
      <==> exists c :: c in s.claims && s.resuming[i] <= c.slot
  {
    var s1 := Next(s, CommitResume(i), next);
    if c :| c in s.claims && s.resuming[i] <= c.slot {
      var steps := LateResumeReclaims(s, i, c, start, matches, next);
    } else {
      StepBase(s, CommitResume(i), start, matches, next);
      StepAscending(s, CommitResume(i), start, matches, next);
      forall steps | Legal(s1, steps, next) && NoResume(steps) ensures !Repeated(Run(s1, steps, next).claims) {
        NoResumeIsAbove(s1, steps, next);
        RunAscending(s1, steps, start, matches, next);
      }
    }
  }

  // ---- No ABA ----

  /** While the row is unwritten since the read it still holds the slot; afterwards it never
      holds that slot again. */
  predicate Fresh(s: State, p: Snapshot) {
    && (p.version == s.version ==> s.row.nextRunAt == Some(p.slot))
    && (p.version < s.version ==> s.row.nextRunAt.None? || s.row.nextRunAt.value > p.slot)
  }

  predicate AllFresh(s: State) {
    forall p :: p in s.snapshots ==> Fresh(s, p)
  }

  /** A resume writes an instant later than every one a worker has read and still holds. */
  predicate AboveReads(s: State, t: Step)
    requires Enabled(s, t)
  {
    t.CommitResume? ==> forall p :: p in s.snapshots ==> p.slot < s.resuming[t.i]
  }

  predicate AboveReadsRun(s: State, steps: seq<Step>, next: int -> int)
    requires Legal(s, steps, next)
    decreases |steps|
  {
    steps == [] || (AboveReads(s, steps[0]) && AboveReadsRun(Next(s, steps[0], next), steps[1..], next))
  }

  lemma StepFresh(s: State, t: Step, start: int, matches: int -> bool, next: int -> int)
    requires IsNext(matches, next) && Base(s, start, matches) && AllFresh(s) && Enabled(s, t) && AboveReads(s, t)
    ensures AllFresh(Next(s, t, next))
  {
    var s' := Next(s, t, next);
    if t.TryClaim? {
      assert s.snapshots[t.i] in s.snapshots;
    }
    forall q | q in s'.snapshots ensures Fresh(s', q) {
      assert q in s.snapshots ==> Fresh(s, q);
    }
  }

  lemma {:induction false} RunFresh(s: State, steps: seq<Step>, start: int, matches: int -> bool, next: int -> int)
    requires IsNext(matches, next) && Base(s, start, matches) && AllFresh(s)
    requires Legal(s, steps, next) && AboveReadsRun(s, steps, next)
    ensures Base(Run(s, steps, next), start, matches) && AllFresh(Run(s, steps, next))
    decreases |steps|
  {
    if steps != [] {
      StepBase(s, steps[0], start, matches, next);
      StepFresh(s, steps[0], start, matches, next);
      RunFresh(Next(s, steps[0], next), steps[1..], start, matches, next);
    }
  }

  /** Over such runs a compare-and-set succeeds exactly when no claim, pause or resume fell
      between its own read and itself, although it compares only the value. */
  lemma ClaimSawNoWrite(start: int, steps: seq<Step>, i: nat, matches: int -> bool, next: int -> int)
    requires IsNext(matches, next)
    requires Legal(Created(start, next), steps, next) && AboveReadsRun(Created(start, next), steps, next)
    requires i < |Run(Created(start, next), steps, next).snapshots|
    ensures
      var s := Run(Created(start, next), steps, next);
      Claims(s, TryClaim(i)) <==> s.snapshots[i].version == s.version
  {
    RunFresh(Created(start, next), steps, start, matches, next);
    var s := Run(Created(start, next), steps, next);
    assert s.snapshots[i] in s.snapshots && Fresh(s, s.snapshots[i]);
  }

  /** A compare-and-set is about to succeed although the row was written since its read. */
  predicate StaleSuccess(s: State) {
    exists j :: 0 <= j < |s.snapshots| && Claims(s, TryClaim(j)) && s.snapshots[j].version != s.version
  }

  /** The exact condition: after a resume is written, some continuation lets a stale read
      succeed if and only if the resume landed at or before an instant a worker still holds. */
  lemma StaleSuccessIff(s: State, i: nat, start: int, matches: int -> bool, next: int -> int)
    requires IsNext(matches, next) && Base(s, start, matches) && AllFresh(s) && i < |s.resuming|
    ensures
      var s1 := Next(s, CommitResume(i), next);
      (exists steps :: Legal(s1, steps, next) && NoResume(steps) && StaleSuccess(Run(s1, steps, next)))
      <==> exists p :: p in s.snapshots && s.resuming[i] <= p.slot
  {
    var s1 := Next(s, CommitResume(i), next);
    if p :| p in s.snapshots && s.resuming[i] <= p.slot {
      var steps := ReachInstant(s1, p.slot, matches, next);
      var z := Run(s1, steps, next);
      var j :| 0 <= j < |s.snapshots| && s.snapshots[j] == p;
      assert z.snapshots[j] == p && Claims(z, TryClaim(j));
    } else {
      StepBase(s, CommitResume(i), start, matches, next);
      StepFresh(s, CommitResume(i), start, matches, next);
      forall steps | Legal(s1, steps, next) && NoResume(steps) ensures !StaleSuccess(Run(s1, steps, next)) {
        NoResumeIsAbove(s1, steps, next);
        RunFresh(s1, steps, start, matches, next);
        NotStale(Run(s1, steps, next), start, matches);
      }
    }
  }

  lemma NotStale(s: State, start: int, matches: int -> bool)
    requires Base(s, start, matches) && AllFresh(s)
    ensures !StaleSuccess(s)
  {
    forall j | 0 <= j < |s.snapshots| && Claims(s, TryClaim(j)) ensures s.snapshots[j].version == s.version {
      assert s.snapshots[j] in s.snapshots && Fresh(s, s.snapshots[j]);
    }
  }

  // ---- A missed window is not replayed ----

  /** A resume writes an instant later than every claiming pass's clock. */
  predicate AbovePasses(s: State, t: Step)
    requires Enabled(s, t)
  {
    t.CommitResume? ==> forall c :: c in s.claims ==> c.at < s.resuming[t.i]
  }

  predicate AbovePassesRun(s: State, steps: seq<Step>, next: int -> int)
    requires Legal(s, steps, next)
    decreases |steps|
  {
    steps == [] || (AbovePasses(s, steps[0]) && AbovePassesRun(Next(s, steps[0], next), steps[1..], next))
  }

  /** Each claim takes an occurrence after everything the previous claim's pass knew of, so
      several windows missed together are made up for by one claim. */
  predicate Chained(s: State) {
    && (forall i, j :: 0 <= i < j < |s.claims| ==> s.claims[i].at < s.claims[j].slot)
    && (s.row.nextRunAt.Some? ==> forall c :: c in s.claims ==> c.at < s.row.nextRunAt.value)
  }

  lemma StepChained(s: State, t: Step, start: int, matches: int -> bool, next: int -> int)
    requires IsNext(matches, next) && Base(s, start, matches) && Chained(s) && Enabled(s, t) && AbovePasses(s, t)
    ensures Chained(Next(s, t, next))
  {
    if t.TryClaim? {
      assert s.snapshots[t.i] in s.snapshots;
      assert forall k :: 0 <= k < |s.claims| ==> s.claims[k] in s.claims;
    }
  }

  lemma {:induction false} RunChained(s: State, steps: seq<Step>, start: int, matches: int -> bool, next: int -> int)
    requires IsNext(matches, next) && Base(s, start, matches) && Chained(s)
    requires Legal(s, steps, next) && AbovePassesRun(s, steps, next)
    ensures Base(Run(s, steps, next), start, matches) && Chained(Run(s, steps, next))
    decreases |steps|
  {
    if steps != [] {
      StepBase(s, steps[0], start, matches, next);
      StepChained(s, steps[0], start, matches, next);
      RunChained(Next(s, steps[0], next), steps[1..], start, matches, next);
    }
  }

  predicate Replayed(claims: seq<Claim>) {
    exists i, j :: 0 <= i < j < |claims| && claims[j].slot <= claims[i].at
  }

  /** The exact condition: a window some pass had already skipped is claimed afterwards in
      some continuation if and only if the resume landed at or before that pass's clock. */
  lemma ReplayedIff(s: State, i: nat, start: int, matches: int -> bool, next: int -> int)
    requires IsNext(matches, next) && Base(s, start, matches) && Chained(s) && i < |s.resuming|
    ensures
      var s1 := Next(s, CommitResume(i), next);
      (exists steps :: Legal(s1, steps, next) && NoResume(steps) && Replayed(Run(s1, steps, next).claims))
      <==> exists c :: c in s.claims && s.resuming[i] <= c.at
  {
    var s1 := Next(s, CommitResume(i), next);
    if c :| c in s.claims && s.resuming[i] <= c.at {
      var steps := PassSteps(s1, s1.clock);
      PassClaims(s1, s1.clock, next);
      var claims := Run(s1, steps, next).claims;
      var k :| 0 <= k < |s.claims| && s.claims[k] == c;
      assert claims[k] == c && claims[|s.claims|] == Claim(s.resuming[i], s1.clock);
    } else {
      StepBase(s, CommitResume(i), start, matches, next);
      StepChained(s, CommitResume(i), start, matches, next);
      forall steps | Legal(s1, steps, next) && NoResume(steps) ensures !Replayed(Run(s1, steps, next).claims) {
        NoResumeIsAbove(s1, steps, next);
        RunChained(s1, steps, start, matches, next);
      }
    }
  }

  // ---- A resume that lands late ----

  /** Such a run exists: a user resumes an active schedule just before it fires, the
      update lands just after, and the command runs twice for the same minute. */
  lemma LateResumeRun(matches: int -> bool, next: int -> int, steps: seq<Step>)
    requires IsNext(matches, next) && (forall t :: matches(t) <==> t % 10 == 0)
    requires steps == [ComputeResume, Tick(10), Query(10), TryClaim(0), CommitResume(0), Query(10), TryClaim(0)]
    ensures Legal(Created(5, next), steps, next)
    ensures Run(Created(5, next), steps, next).claims == [Claim(10, 10), Claim(10, 10)]
  {
    NextIsLeast(matches, next, 5, 10);
    assert matches(10) && matches(next(5));
    assert next(5) == 10;
    var s0 := Created(5, next);
    var s1 := Next(s0, steps[0], next);
    var s2 := Next(s1, steps[1], next);
    var s3 := Next(s2, steps[2], next);
    assert s3.snapshots == [Snapshot(10, 10, 0)] && s3.resuming == [10];
    var s4 := Next(s3, steps[3], next);
    assert s4.claims == [Claim(10, 10)] && s4.snapshots == [];
    var s5 := Next(s4, steps[4], next);
    assert s5.row == Row(true, Some(10));
    var s6 := Next(s5, steps[5], next);
    assert s6.snapshots == [Snapshot(10, 10, 2)];
    var s7 := Next(s6, steps[6], next);
    Suffixes(steps);
    assert Run(s7, steps[7..], next) == s7;
    assert Legal(s6, steps[6..], next) && Run(s6, steps[6..], next) == s7;
    assert Legal(s5, steps[5..], next) && Run(s5, steps[5..], next) == s7;
    assert Legal(s4, steps[4..], next) && Run(s4, steps[4..], next) == s7;
    assert Legal(s3, steps[3..], next) && Run(s3, steps[3..], next) == s7;
    assert Legal(s2, steps[2..], next) && Run(s2, steps[2..], next) == s7;
    assert Legal(s1, steps[1..], next) && Run(s1, steps[1..], next) == s7;
  }

  lemma Suffixes(steps: seq<Step>)
    ensures forall i :: 0 <= i < |steps| ==>
      steps[i..] != [] && steps[i..][0] == steps[i] && steps[i..][1..] == steps[i + 1..]
  {
  }

  // ---- The service, one pass at a time ----

  datatype Schedule = Schedule(row: Row, lastRunAt: Option<int>, runCount: nat, failed: bool)

  /** A claimed schedule after its dispatch attempt; a failed dispatch is not rescheduled early. */
  function Ran(x: Schedule, now: int, nextRun: int, ok: bool): Schedule {
    Schedule(x.row.(nextRunAt := Some(nextRun)), Some(now), if ok then x.runCount + 1 else x.runCount, !ok)
  }

  function CountOk(ids: seq<string>, ok: string -> bool): nat {
    if ids == [] then 0 else CountOk(ids[..|ids| - 1], ok) + if ok(ids[|ids| - 1]) then 1 else 0
  }

  predicate IsDue(x: Schedule, now: int) {
    x.row.active && x.row.nextRunAt.Some? && x.row.nextRunAt.value <= now
  }

  /** The count of a pass is the number of its schedules that were dispatched. */
  lemma {:induction false} CountOkIs(ids: seq<string>, ok: string -> bool, done: set<string>)
    requires forall i, j :: 0 <= i < j < |ids| ==> ids[i] != ids[j]
    requires forall id :: id in done <==> id in ids && ok(id)
    ensures CountOk(ids, ok) == |done|
  {
    if ids != [] {
      var front, last := ids[..|ids| - 1], ids[|ids| - 1];
      assert ids == front + [last];
      LastApart(ids);
      CountOkIs(front, ok, done - {last});
    }
  }

  lemma LastApart(ids: seq<string>)
    requires ids != [] && forall i, j :: 0 <= i < j < |ids| ==> ids[i] != ids[j]
    ensures ids[|ids| - 1] !in ids[..|ids| - 1]
  {
  }

  /** A schedule that ran: its next instant, when it ran, and whether it did. */
  lemma RanMeans(x: Schedule, now: int, nextRun: int, ok: bool)
    ensures
      var y := Ran(x, now, nextRun, ok);
      && y.row.active == x.row.active && y.row.nextRunAt == Some(nextRun) && y.lastRunAt == Some(now)
      && y.runCount == x.runCount + (if ok then 1 else 0) && y.failed == !ok
    ensures IsDue(x, now) <==> x.row.active && x.row.nextRunAt.Some? && x.row.nextRunAt.value <= now
  {
  }

  class ScheduleTable {
    var rows: map<string, Schedule>

    constructor ()
      ensures rows == map[]
    {
      rows := map[];
    }

    /** `due` is the query's result (at most 50 due schedules), `ok` whether dispatching
        succeeds. Undisturbed, the pass claims each of them once and touches nothing else. */
    method RunDueSchedules(due: seq<string>, now: int, nextRun: (string, int) -> int, ok: string -> bool)
      returns (dispatched: nat)
      requires |due| <= 50 && forall i, j :: 0 <= i < j < |due| ==> due[i] != due[j]
      requires forall id :: id in due ==> id in rows && IsDue(rows[id], now)
      modifies this
      ensures rows.Keys == old(rows).Keys && dispatched == CountOk(due, ok)
      ensures forall id :: id in rows ==>
        rows[id] == if id in due then Ran(old(rows)[id], now, nextRun(id, now), ok(id)) else old(rows)[id]
      ensures (forall id, t :: nextRun(id, t) > t) ==> forall id :: id in due ==> !IsDue(rows[id], now)
    {
      dispatched := 0;
      var rows0 := rows;  // what the query returned
      for i := 0 to |due|
        invariant rows.Keys == rows0.Keys && dispatched == CountOk(due[..i], ok)
        invariant forall id :: id in rows ==>
          rows[id] == if id in due[..i] then Ran(rows0[id], now, nextRun(id, now), ok(id)) else rows0[id]
      {
        var id := due[i];
        assert due[..i + 1] == due[..i] + [id] && id !in due[..i];
        var seen := rows0[id].row.nextRunAt;
        var claimed := Claim(id, seen, nextRun(id, now));
        if !claimed { continue; }
        var x := rows[id];
        if ok(id) {
          rows := rows[id := x.(lastRunAt := Some(now), runCount := x.runCount + 1, failed := false)];
          dispatched := dispatched + 1;
        } else {
          rows := rows[id := x.(lastRunAt := Some(now), failed := true)];
        }
      }
      assert due[..|due|] == due;
    }

    /** The compare-and-set: succeeds exactly when `nextRunAt` is still what was read. */
    method Claim(id: string, seen: Option<int>, to: int) returns (claimed: bool)
      requires id in rows
      modifies this
      ensures claimed <==> old(rows)[id].row.nextRunAt == seen
      ensures rows == if claimed then old(rows)[id := old(rows)[id].(row := old(rows)[id].row.(nextRunAt := Some(to)))]
                      else old(rows)
    {
      claimed := rows[id].row.nextRunAt == seen;
      if claimed {
        rows := rows[id := rows[id].(row := rows[id].row.(nextRunAt := Some(to)))];
      }
    }

    /** Pausing clears the next run; resuming aims at the next instant, not at missed ones. */
    method SetScheduleStatus(id: string, active: bool, now: int, nextRun: (string, int) -> int) returns (found: bool)
      modifies this
      ensures found <==> id in old(rows)
      ensures rows == if found
        then old(rows)[id := old(rows)[id].(row := Row(active, if active then Some(nextRun(id, now)) else None))]
        else old(rows)
    {
      found := id in rows;
      if found {
        var at := if active then Some(nextRun(id, now)) else None;
        rows := rows[id := rows[id].(row := Row(active, at))];
      }
    }
  }
}
