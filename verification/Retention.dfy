/** Hourly roll-up and pruning of device metrics (src/server/modules/devices/retention.service.ts). */
module Retention {
  import opened Prelude

  /** Milliseconds in an hour, and the instant cut down to its hour. */
  const HOUR := 3_600_000

  function HourOf(at: int): int {
    at / HOUR
  }

  datatype Sample = Sample(device: string, at: int, cpu: real, mem: real, disk: real, load1: real)

  datatype Key = Key(device: string, hour: int)

  function KeyOf(s: Sample): Key {
    Key(s.device, HourOf(s.at))
  }

  /** The bucket's hour is over: no sample stamped from `now` on can fall into it. */
  predicate Closed(k: Key, now: int) {
    k.hour < HourOf(now)
  }

  // ---- Aggregates ----

  datatype Column = Cpu | Mem | Disk | Load1

  function Value(s: Sample, c: Column): real {
    match c
    case Cpu => s.cpu
    case Mem => s.mem
    case Disk => s.disk
    case Load1 => s.load1
  }

  function Sum(ss: seq<Sample>, c: Column): real {
    if ss == [] then 0.0 else Sum(ss[..|ss| - 1], c) + Value(ss[|ss| - 1], c)
  }

  function Avg(ss: seq<Sample>, c: Column): real
    requires ss != []
  {
    Sum(ss, c) / |ss| as real
  }

  function Max(ss: seq<Sample>, c: Column): real
    requires ss != []
  {
    var last := Value(ss[|ss| - 1], c);
    if |ss| == 1 then last
    else
      var rest := Max(ss[..|ss| - 1], c);
      if last > rest then last else rest
  }

  lemma {:induction false} MaxIsGreatest(ss: seq<Sample>, c: Column)
    requires ss != []
    ensures forall s :: s in ss ==> Value(s, c) <= Max(ss, c)
    ensures exists s :: s in ss && Value(s, c) == Max(ss, c)
  {
    var front, last := ss[..|ss| - 1], ss[|ss| - 1];
    assert forall s :: s in ss <==> s in front || s == last;
    if |ss| > 1 {
      MaxIsGreatest(front, c);
      var s :| s in front && Value(s, c) == Max(front, c);
      assert Value(if Value(last, c) > Value(s, c) then last else s, c) == Max(ss, c);
    }
  }

  datatype Row = Row(samples: nat, cpuAvg: real, cpuMax: real, memAvg: real, memMax: real,
                     diskAvg: real, diskMax: real, load1Avg: real)

  function Aggregate(ss: seq<Sample>): Row
    requires ss != []
  {
    Row(|ss|, Avg(ss, Cpu), Max(ss, Cpu), Avg(ss, Mem), Max(ss, Mem), Avg(ss, Disk), Max(ss, Disk), Avg(ss, Load1))
  }

  // ---- Tables ----

  /** The samples of one bucket. */
  function In(ss: seq<Sample>, k: Key): seq<Sample> {
    if ss == [] then []
    else In(ss[..|ss| - 1], k) + if KeyOf(ss[|ss| - 1]) == k then [ss[|ss| - 1]] else []
  }

  lemma {:induction false} InMembers(ss: seq<Sample>, k: Key)
    ensures forall s :: s in In(ss, k) <==> s in ss && KeyOf(s) == k
  {
    if ss != [] {
      InMembers(ss[..|ss| - 1], k);
      assert ss == ss[..|ss| - 1] + [ss[|ss| - 1]];
    }
  }

  lemma InAppend(ss: seq<Sample>, s: Sample, k: Key)
    ensures In(ss + [s], k) == if KeyOf(s) == k then In(ss, k) + [s] else In(ss, k)
  {
    assert (ss + [s])[..|ss|] == ss;
  }

  /** The samples at or after the cutoff. */
  function From(ss: seq<Sample>, cutoff: int): seq<Sample> {
    if ss == [] then []
    else From(ss[..|ss| - 1], cutoff) + if ss[|ss| - 1].at >= cutoff then [ss[|ss| - 1]] else []
  }

  /** The raw table after the guarded delete: a row goes only if it is older than the cutoff
      and its bucket has an hourly row. */
  function Kept(raw: seq<Sample>, hourly: map<Key, Row>, cutoff: int): seq<Sample> {
    if raw == [] then []
    else
      var last := raw[|raw| - 1];
      Kept(raw[..|raw| - 1], hourly, cutoff) + if last.at < cutoff && KeyOf(last) in hourly then [] else [last]
  }

  lemma {:induction false} KeptIn(raw: seq<Sample>, hourly: map<Key, Row>, cutoff: int, k: Key)
    ensures In(Kept(raw, hourly, cutoff), k) == if k in hourly then From(In(raw, k), cutoff) else In(raw, k)
  {
    if raw != [] {
      var front, last := raw[..|raw| - 1], raw[|raw| - 1];
      KeptIn(front, hourly, cutoff, k);
      if last.at < cutoff && KeyOf(last) in hourly {
        assert Kept(raw, hourly, cutoff) == Kept(front, hourly, cutoff);
      } else {
        InAppend(Kept(front, hourly, cutoff), last, k);
      }
      FromAppend(In(front, k), last, cutoff);
      assert In(raw, k) == if KeyOf(last) == k then In(front, k) + [last] else In(front, k);
    }
  }

  lemma FromAppend(ss: seq<Sample>, s: Sample, cutoff: int)
    ensures From(ss + [s], cutoff) == From(ss, cutoff) + if s.at >= cutoff then [s] else []
  {
    assert (ss + [s])[..|ss|] == ss;
  }

  lemma {:induction false} FromMembers(ss: seq<Sample>, cutoff: int)
    ensures forall s :: s in From(ss, cutoff) <==> s in ss && s.at >= cutoff
  {
    if ss != [] {
      FromMembers(ss[..|ss| - 1], cutoff);
      assert ss == ss[..|ss| - 1] + [ss[|ss| - 1]];
    }
  }

  /** Filtering drops nothing exactly when no sample is too old. */
  lemma {:induction false} FromLength(ss: seq<Sample>, cutoff: int)
    ensures |From(ss, cutoff)| <= |ss|
    ensures |From(ss, cutoff)| == |ss| <==> From(ss, cutoff) == ss
    ensures From(ss, cutoff) == ss <==> forall s :: s in ss ==> s.at >= cutoff
  {
    if ss != [] {
      var front, last := ss[..|ss| - 1], ss[|ss| - 1];
      FromLength(front, cutoff);
      assert ss == front + [last];
      assert last in ss;
      assert forall s :: s in ss <==> s in front || s == last;
    }
  }

  lemma FromBounds(ss: seq<Sample>, cutoff: int)
    ensures |From(ss, cutoff)| <= |ss|
    ensures |From(ss, cutoff)| == |ss| <==> From(ss, cutoff) == ss
    ensures From(ss, cutoff) == ss <==> forall s :: s in ss ==> s.at >= cutoff
    ensures From(ss, cutoff) == [] <==> forall s :: s in ss ==> s.at < cutoff
  {
    FromLength(ss, cutoff);
    FromMembers(ss, cutoff);
    if From(ss, cutoff) != [] {
      assert From(ss, cutoff)[0] in ss;
    }
  }

  function KeysOf(ss: seq<Sample>): set<Key> {
    set s | s in ss :: KeyOf(s)
  }

  function ClosedKeys(raw: seq<Sample>, now: int): set<Key> {
    set k | k in KeysOf(raw) && Closed(k, now)
  }

  function Written(raw: seq<Sample>, now: int): map<Key, Row> {
    map k | k in ClosedKeys(raw, now) && In(raw, k) != [] :: Aggregate(In(raw, k))
  }

  /** Every bucket that is over and still has raw rows gets their aggregate, replacing any row
      it had; other rows stay. */
  function RolledUp(raw: seq<Sample>, hourly: map<Key, Row>, now: int): map<Key, Row> {
    hourly + Written(raw, now)
  }

  lemma KeysHaveSamples(raw: seq<Sample>)
    ensures forall k :: k in KeysOf(raw) <==> In(raw, k) != []
  {
    forall k ensures k in KeysOf(raw) <==> In(raw, k) != [] {
      InMembers(raw, k);
      if In(raw, k) != [] {
        assert In(raw, k)[0] in raw;
      }
    }
  }

  lemma RolledUpAt(raw: seq<Sample>, hourly: map<Key, Row>, now: int, k: Key)
    ensures
      var after := RolledUp(raw, hourly, now);
      && (k in after <==> k in hourly || (Closed(k, now) && In(raw, k) != []))
      && (k in after ==>
            after[k] == if Closed(k, now) && In(raw, k) != [] then Aggregate(In(raw, k)) else hourly[k])
  {
    KeysHaveSamples(raw);
  }

  /** The hourly rows no older than the cutoff. */
  function Unpruned(hourly: map<Key, Row>, cutoff: int): map<Key, Row> {
    map k | k in hourly && !(k.hour * HOUR < cutoff) :: hourly[k]
  }

  // ---- Runs ----

  /** `recorded` is every sample ever stored and `pruned` the latest hourly cutoff applied. */
  datatype State = State(raw: seq<Sample>, hourly: map<Key, Row>, recorded: seq<Sample>, clock: int, pruned: int)

  /** The three statements of a pass are separate steps: anything may come between them. */
  datatype Step =
    | Record(sample: Sample)
    | Tick(now: int)
    | RollUp
    | DeleteRaw(cutoff: int)
    | PruneHourly(oldest: int)

  predicate Enabled(s: State, step: Step) {
    match step
    case Record(sample) => sample.at == s.clock
    case Tick(now) => s.clock <= now
    case _ => true
  }

  function Next(s: State, step: Step): State {
    match step
    case Record(sample) => s.(raw := s.raw + [sample], recorded := s.recorded + [sample])
    case Tick(now) => s.(clock := now)
    case RollUp => s.(hourly := RolledUp(s.raw, s.hourly, s.clock))
    case DeleteRaw(cutoff) => s.(raw := Kept(s.raw, s.hourly, cutoff))
    case PruneHourly(oldest) =>
      s.(hourly := Unpruned(s.hourly, oldest), pruned := if oldest > s.pruned then oldest else s.pruned)
  }

  predicate Legal(s: State, steps: seq<Step>)
    decreases |steps|
  {
    steps == [] || (Enabled(s, steps[0]) && Legal(Next(s, steps[0]), steps[1..]))
  }

  function Run(s: State, steps: seq<Step>): State
    decreases |steps|
  {
    if steps == [] then s else Run(Next(s, steps[0]), steps[1..])
  }

  /** Nothing can be recorded in an hour before the one a run starts in. */
  function Initial(now: int): State {
    State([], map[], [], now, now - now % HOUR)
  }

  function Raw(s: State, k: Key): seq<Sample> { In(s.raw, k) }

  function All(s: State, k: Key): seq<Sample> { In(s.recorded, k) }

  predicate Pruned(s: State, k: Key) {
    k.hour * HOUR < s.pruned
  }

  // ---- Hour-aligned cutoffs: nothing is lost ----

  predicate Aligned(step: Step) {
    step.DeleteRaw? ==> step.cutoff % HOUR == 0
  }

  /** One bucket holds all its samples or none, and its hourly row, if any, is that of all. */
  predicate Exact(s: State, k: Key) {
    && (Raw(s, k) == All(s, k) || Raw(s, k) == [])
    && (k in s.hourly ==> Closed(k, s.clock) && All(s, k) != [] && s.hourly[k] == Aggregate(All(s, k)))
    && (Raw(s, k) == [] && All(s, k) != [] ==> Closed(k, s.clock) && (k in s.hourly || Pruned(s, k)))
  }

  lemma AlignedKeepsWhole(ss: seq<Sample>, k: Key, cutoff: int)
    requires cutoff % HOUR == 0
    ensures From(In(ss, k), cutoff) == In(ss, k) || From(In(ss, k), cutoff) == []
  {
    InMembers(ss, k);
    FromBounds(In(ss, k), cutoff);
    forall s, t | s in In(ss, k) && t in In(ss, k) && s.at < cutoff ensures t.at < cutoff {
      SameSide(s.at, t.at, cutoff);
    }
  }

  lemma SameSide(a: int, b: int, cutoff: int)
    requires HourOf(a) == HourOf(b) && cutoff % HOUR == 0 && a < cutoff
    ensures b < cutoff
  {
  }

  lemma ExactStep(s: State, step: Step, k: Key)
    requires Enabled(s, step) && Aligned(step) && Exact(s, k)
    ensures Exact(Next(s, step), k)
  {
    match step
    case Record(sample) =>
      InAppend(s.raw, sample, k);
      InAppend(s.recorded, sample, k);
    case RollUp =>
      RolledUpAt(s.raw, s.hourly, s.clock, k);
    case DeleteRaw(cutoff) =>
      KeptIn(s.raw, s.hourly, cutoff, k);
      AlignedKeepsWhole(s.raw, k, cutoff);
    case _ =>
  }

  /** After any run with hour-aligned raw cutoffs, however its passes interleave with new
      samples, every hourly row is the aggregate of all samples ever recorded in its hour. */
  lemma {:induction false} RunExact(s: State, steps: seq<Step>, k: Key)
    requires Legal(s, steps) && (forall i :: 0 <= i < |steps| ==> Aligned(steps[i])) && Exact(s, k)
    ensures Exact(Run(s, steps), k)
    decreases |steps|
  {
    if steps != [] {
      ExactStep(s, steps[0], k);
      RunExact(Next(s, steps[0]), steps[1..], k);
    }
  }

  /** So a roll-up leaves each unpruned bucket that is over and was ever sampled with its
      exact row. */
  lemma RollUpCompletes(now: int, steps: seq<Step>, k: Key)
    requires Legal(Initial(now), steps) && forall i :: 0 <= i < |steps| ==> Aligned(steps[i])
    ensures
      var s := Next(Run(Initial(now), steps), RollUp);
      Closed(k, s.clock) && All(s, k) != [] && !Pruned(s, k) ==>
        k in s.hourly && s.hourly[k] == Aggregate(All(s, k))
  {
    RunExact(Initial(now), steps, k);
    var s := Run(Initial(now), steps);
    ExactStep(s, RollUp, k);
    RolledUpAt(s.raw, s.hourly, s.clock, k);
  }

  // ---- Any cutoffs: what is still true ----

  /** A row never claims more than was recorded, and every recorded sample is still in the raw
      table unless its bucket has a row or was pruned. */
  ghost predicate Bounded(s: State, k: Key) {
    && |Raw(s, k)| <= |All(s, k)|
    && (forall x :: x in Raw(s, k) ==> x in All(s, k))
    && (k in s.hourly ==> Understates(s.hourly[k], All(s, k)))
    && (|Raw(s, k)| == |All(s, k)| || k in s.hourly || Pruned(s, k))
  }

  predicate Understates(row: Row, all: seq<Sample>) {
    && 1 <= row.samples <= |all|
    && row.cpuMax <= Max(all, Cpu) && row.memMax <= Max(all, Mem) && row.diskMax <= Max(all, Disk)
  }

  lemma MaxGrows(some: seq<Sample>, all: seq<Sample>, c: Column)
    requires some != [] && all != [] && forall x :: x in some ==> x in all
    ensures Max(some, c) <= Max(all, c)
  {
    MaxIsGreatest(some, c);
    MaxIsGreatest(all, c);
  }

  lemma AggregateUnderstates(some: seq<Sample>, all: seq<Sample>)
    requires some != [] && |some| <= |all| && forall x :: x in some ==> x in all
    ensures Understates(Aggregate(some), all)
  {
    MaxGrows(some, all, Cpu);
    MaxGrows(some, all, Mem);
    MaxGrows(some, all, Disk);
  }

  lemma StillUnderstates(row: Row, all: seq<Sample>, s: Sample)
    requires Understates(row, all)
    ensures Understates(row, all + [s])
  {
    MaxGrows(all, all + [s], Cpu);
    MaxGrows(all, all + [s], Mem);
    MaxGrows(all, all + [s], Disk);
  }

  lemma BoundedStep(s: State, step: Step, k: Key)
    requires Enabled(s, step) && Bounded(s, k)
    ensures Bounded(Next(s, step), k)
  {
    match step
    case Record(sample) =>
      InAppend(s.raw, sample, k);
      InAppend(s.recorded, sample, k);
      if k in s.hourly {
        StillUnderstates(s.hourly[k], All(s, k), sample);
      }
    case RollUp =>
      RolledUpAt(s.raw, s.hourly, s.clock, k);
      if Raw(s, k) != [] {
        AggregateUnderstates(Raw(s, k), All(s, k));
      }
    case DeleteRaw(cutoff) =>
      KeptIn(s.raw, s.hourly, cutoff, k);
      FromLength(Raw(s, k), cutoff);
      FromMembers(Raw(s, k), cutoff);
    case _ =>
  }

  /** Whatever the cutoffs, no bucket's count or maximum is ever overstated and no sample
      disappears without its bucket having been written. */
  lemma {:induction false} RunBounded(s: State, steps: seq<Step>, k: Key)
    requires Legal(s, steps) && Bounded(s, k)
    ensures Bounded(Run(s, steps), k)
    decreases |steps|
  {
    if steps != [] {
      BoundedStep(s, steps[0], k);
      RunBounded(Next(s, steps[0]), steps[1..], k);
    }
  }

  lemma {:induction false} DeletedWasWritten(raw: seq<Sample>, hourly: map<Key, Row>, cutoff: int, s: Sample)
    requires s in raw
    ensures s !in Kept(raw, hourly, cutoff) <==> s.at < cutoff && KeyOf(s) in hourly
  {
    var front, last := raw[..|raw| - 1], raw[|raw| - 1];
    assert raw == front + [last];
    if s in front {
      DeletedWasWritten(front, hourly, cutoff, s);
    } else {
      KeptSubset(front, hourly, cutoff);
    }
  }

  lemma {:induction false} KeptSubset(raw: seq<Sample>, hourly: map<Key, Row>, cutoff: int)
    ensures forall s :: s in Kept(raw, hourly, cutoff) ==> s in raw
  {
    if raw != [] {
      KeptSubset(raw[..|raw| - 1], hourly, cutoff);
      assert raw == raw[..|raw| - 1] + [raw[|raw| - 1]];
    }
  }

  // ---- Unaligned cutoffs: exactly when a row is spoiled ----

  /** The cutoff falls between two raw samples of the bucket. */
  ghost predicate Straddles(ss: seq<Sample>, cutoff: int) {
    (exists s :: s in ss && s.at < cutoff) && (exists s :: s in ss && s.at >= cutoff)
  }

  /** From an exact bucket with a row, the next roll-up after a delete at any cutoff leaves an
      exact row if and only if the cutoff did not fall between two of its raw samples; if it
      did, the row then counts too few. */
  lemma SpoiledIffStraddled(s: State, cutoff: int, k: Key)
    requires Exact(s, k) && k in s.hourly
    ensures
      var after := Next(Next(s, DeleteRaw(cutoff)), RollUp);
      && k in after.hourly
      && (after.hourly[k] == Aggregate(All(s, k)) <==> !Straddles(Raw(s, k), cutoff))
      && (after.hourly[k].samples < |All(s, k)| <==> Straddles(Raw(s, k), cutoff))
  {
    AfterDeleteAndRollUp(s, cutoff, k);
    StraddledSplits(Raw(s, k), cutoff);
  }

  lemma AfterDeleteAndRollUp(s: State, cutoff: int, k: Key)
    requires k in s.hourly && Closed(k, s.clock)
    ensures
      var after, rest := Next(Next(s, DeleteRaw(cutoff)), RollUp), From(Raw(s, k), cutoff);
      && after.recorded == s.recorded && k in after.hourly
      && after.hourly[k] == if rest == [] then s.hourly[k] else Aggregate(rest)
  {
    KeptIn(s.raw, s.hourly, cutoff, k);
    RolledUpAt(Kept(s.raw, s.hourly, cutoff), s.hourly, s.clock, k);
  }

  lemma StraddledSplits(ss: seq<Sample>, cutoff: int)
    ensures
      var rest := From(ss, cutoff);
      && (Straddles(ss, cutoff) ==> rest != [] && |rest| < |ss|)
      && (!Straddles(ss, cutoff) ==> rest == [] || rest == ss)
  {
    FromBounds(ss, cutoff);
  }

  // ---- Unaligned cutoffs over whole runs ----

  /** The bucket has lost some of its raw samples and kept others. */
  predicate Partial(s: State, k: Key) {
    0 < |Raw(s, k)| < |All(s, k)|
  }

  /** The bucket's row, if any, is the aggregate of everything recorded in its hour. */
  predicate RowTrue(s: State, k: Key) {
    k in s.hourly ==> All(s, k) != [] && s.hourly[k] == Aggregate(All(s, k))
  }

  /** Raw samples go only after the hour is over. */
  predicate Tracked(s: State, k: Key) {
    && |Raw(s, k)| <= |All(s, k)| && (|Raw(s, k)| == |All(s, k)| ==> Raw(s, k) == All(s, k))
    && (Raw(s, k) != All(s, k) || k in s.hourly ==> Closed(k, s.clock))
  }

  /** The one thing that makes a row wrong: rolling a partial bucket up again. */
  predicate RollsPartial(s: State, step: Step, k: Key) {
    step.RollUp? && Partial(s, k)
  }

  lemma StepTracked(s: State, step: Step, k: Key)
    requires Tracked(s, k) && Enabled(s, step)
    ensures Tracked(Next(s, step), k)
  {
    match step
    case Record(sample) =>
      InAppend(s.raw, sample, k);
      InAppend(s.recorded, sample, k);
    case RollUp => RolledUpAt(s.raw, s.hourly, s.clock, k);
    case DeleteRaw(cutoff) =>
      KeptIn(s.raw, s.hourly, cutoff, k);
      FromLength(Raw(s, k), cutoff);
    case _ =>
  }

  lemma StepTrueIff(s: State, step: Step, k: Key)
    requires Tracked(s, k) && RowTrue(s, k) && Enabled(s, step)
    ensures RowTrue(Next(s, step), k) <==> !RollsPartial(s, step, k)
  {
    match step
    case Record(sample) => InAppend(s.recorded, sample, k);
    case RollUp => RolledUpAt(s.raw, s.hourly, s.clock, k);
    case _ =>
  }

  /** How a bucket becomes partial, and stops being so: a delete with a row there cuts between its
      raw samples, until one takes the rest. */
  lemma PartialIff(s: State, step: Step, k: Key)
    requires Tracked(s, k) && Enabled(s, step)
    ensures
      var deletes := step.DeleteRaw? && k in s.hourly;
      Partial(Next(s, step), k) <==>
        || (deletes && Straddles(Raw(s, k), step.cutoff))
        || (Partial(s, k) && !(deletes && forall x :: x in Raw(s, k) ==> x.at < step.cutoff))
  {
    match step
    case Record(sample) =>
      InAppend(s.raw, sample, k);
      InAppend(s.recorded, sample, k);
    case DeleteRaw(cutoff) =>
      KeptIn(s.raw, s.hourly, cutoff, k);
      if k in s.hourly {
        FromBounds(Raw(s, k), cutoff);
        StraddledSplits(Raw(s, k), cutoff);
      }
    case _ =>
  }

  ghost predicate AlwaysTrue(s: State, steps: seq<Step>, k: Key)
    decreases |steps|
  {
    RowTrue(s, k) && (steps != [] ==> AlwaysTrue(Next(s, steps[0]), steps[1..], k))
  }

  ghost predicate NeverRollsPartial(s: State, steps: seq<Step>, k: Key)
    decreases |steps|
  {
    steps != [] ==> !RollsPartial(s, steps[0], k) && NeverRollsPartial(Next(s, steps[0]), steps[1..], k)
  }

  /** Whatever the cutoffs, over every interleaving: the bucket's row is throughout the aggregate
      of everything recorded in its hour if and only if no roll-up comes while the bucket is
      partial. */
  lemma {:induction false} AlwaysTrueIff(s: State, steps: seq<Step>, k: Key)
    requires Tracked(s, k) && RowTrue(s, k) && Legal(s, steps)
    ensures AlwaysTrue(s, steps, k) <==> NeverRollsPartial(s, steps, k)
    decreases |steps|
  {
    if steps != [] {
      StepTracked(s, steps[0], k);
      StepTrueIff(s, steps[0], k);
      if RowTrue(Next(s, steps[0]), k) {
        AlwaysTrueIff(Next(s, steps[0]), steps[1..], k);
      }
    }
  }

  lemma InitialTracked(now: int, k: Key)
    ensures Tracked(Initial(now), k) && RowTrue(Initial(now), k)
  {
  }

  /** The cutoff a pass computes is aligned only when the pass starts exactly on the hour. */
  lemma CutoffAlignedIff(now: int, keepHours: nat)
    ensures RawCutoff(now, keepHours) % HOUR == 0 <==> now % HOUR == 0
  {
    var q, r := now / 3_600_000 - keepHours, now % 3_600_000;
    assert RawCutoff(now, keepHours) == q * 3_600_000 + r;
    assert (q * 3_600_000 + r) % 3_600_000 == r;
  }

  /** Two samples of one hour, and the moment 48 hours and a half after that hour began. */
  function TwoSamples(a: Sample, b: Sample): State {
    State([a, b], map[], [a, b], 174_600_000, a.at - a.at % HOUR)
  }

  lemma TwoSamplesReachable(a: Sample, b: Sample)
    requires a.at <= b.at <= 174_600_000
    ensures
      var steps := [Record(a), Tick(b.at), Record(b), Tick(174_600_000)];
      Legal(Initial(a.at), steps) && Run(Initial(a.at), steps) == TwoSamples(a, b)
  {
    var steps := [Record(a), Tick(b.at), Record(b), Tick(174_600_000)];
    var s2 := State([a], map[], [a], b.at, a.at - a.at % HOUR);
    assert steps[1..][1..] == [Record(b), Tick(174_600_000)];
    assert [a] + [b] == [a, b] && [] + [a] == [a];
    assert Legal(s2, [Record(b), Tick(174_600_000)]) && Run(s2, [Record(b), Tick(174_600_000)]) == TwoSamples(a, b) by {
      assert [Record(b), Tick(174_600_000)][1..] == [Tick(174_600_000)];
      assert [Tick(174_600_000)][1..] == [];
    }
    assert Next(Next(Initial(a.at), Record(a)), Tick(b.at)) == s2;
  }

  /** With the default 48 hours, a pass at half past an hour, followed by the next one, halves
      the count of the hour its cutoff fell in. */
  lemma DefaultsLoseSamples(a: Sample, b: Sample)
    requires a.device == b.device && a.at == 600_000 && b.at == 3_000_000
    ensures
      var written := Next(TwoSamples(a, b), RollUp);
      var after := Next(Next(written, DeleteRaw(RawCutoff(174_600_000, 48))), RollUp);
      var k := Key(a.device, 0);
      && k in written.hourly && written.hourly[k].samples == 2
      && k in after.hourly && after.hourly[k].samples == 1
  {
    var k := Key(a.device, 0);
    var s := TwoSamples(a, b);
    InPair(a, b, k);
    RolledUpAt(s.raw, s.hourly, s.clock, k);
    AfterDeleteAndRollUp(Next(s, RollUp), RawCutoff(174_600_000, 48), k);
    FromPair(a, b, RawCutoff(174_600_000, 48));
  }

  lemma InPair(a: Sample, b: Sample, k: Key)
    requires KeyOf(a) == k && KeyOf(b) == k
    ensures In([a, b], k) == [a, b]
  {
    assert [a, b] == [a] + [b] && [a] == [] + [a];
    InAppend([], a, k);
    InAppend([a], b, k);
  }

  lemma FromPair(a: Sample, b: Sample, cutoff: int)
    requires a.at < cutoff <= b.at
    ensures From([a, b], cutoff) == [b]
  {
    assert [a, b] == [a] + [b] && [a] == [] + [a];
    FromAppend([], a, cutoff);
    FromAppend([a], b, cutoff);
  }

  class MetricTables {
    var raw: seq<Sample>
    var hourly: map<Key, Row>

    constructor ()
      ensures raw == [] && hourly == map[]
    {
      raw, hourly := [], map[];
    }

    method RollUp(now: int) returns (bucketsWritten: nat)
      modifies this`hourly
      ensures hourly == RolledUp(raw, old(hourly), now)
      ensures bucketsWritten == |ClosedKeys(raw, now)|
    {
      bucketsWritten := |ClosedKeys(raw, now)|;
      hourly := hourly + Written(raw, now);
    }

    method DeleteRaw(cutoff: int) returns (deleted: nat)
      modifies this`raw
      ensures raw == Kept(old(raw), hourly, cutoff) && deleted == |old(raw)| - |raw|
    {
      KeptNoLonger(raw, hourly, cutoff);
      var kept := Kept(raw, hourly, cutoff);
      deleted := |raw| - |kept|;
      raw := kept;
    }

    method PruneHourly(oldest: int) returns (deleted: nat)
      modifies this`hourly
      ensures hourly == Unpruned(old(hourly), oldest) && deleted == |old(hourly)| - |hourly|
    {
      UnprunedNoLarger(hourly, oldest);
      var left := Unpruned(hourly, oldest);
      deleted := |hourly| - |left|;
      hourly := left;
    }

    /** One pass with nothing in between: roll up, delete what was written, prune. */
    method RunMetricRetention(now: int, rawHours: nat, hourlyDays: nat)
      returns (bucketsWritten: nat, rawDeleted: nat, hourlyDeleted: nat)
      modifies this
      ensures (raw, hourly) == Pass(old(raw), old(hourly), now, RawCutoff(now, rawHours), HourlyCutoff(now, hourlyDays))
      ensures bucketsWritten == |ClosedKeys(old(raw), now)| && rawDeleted == |old(raw)| - |raw|
      ensures hourlyDeleted == |RolledUp(old(raw), old(hourly), now)| - |hourly|
    {
      var rawCutoff := RawCutoff(now, rawHours);
      var hourlyCutoff := HourlyCutoff(now, hourlyDays);
      bucketsWritten := RollUp(now);
      rawDeleted := DeleteRaw(rawCutoff);
      hourlyDeleted := PruneHourly(hourlyCutoff);
    }
  }

  function RawCutoff(now: int, keepHours: nat): int {
    now - keepHours * 3_600_000
  }

  function HourlyCutoff(now: int, keepDays: nat): int {
    now - keepDays * 86_400_000
  }

  function Pass(raw: seq<Sample>, hourly: map<Key, Row>, now: int, rawCutoff: int,
                hourlyCutoff: int): (seq<Sample>, map<Key, Row>)
  {
    var written := RolledUp(raw, hourly, now);
    (Kept(raw, written, rawCutoff), Unpruned(written, hourlyCutoff))
  }

  lemma {:induction false} KeptNoLonger(raw: seq<Sample>, hourly: map<Key, Row>, cutoff: int)
    ensures |Kept(raw, hourly, cutoff)| <= |raw|
  {
    if raw != [] {
      KeptNoLonger(raw[..|raw| - 1], hourly, cutoff);
    }
  }

  lemma UnprunedNoLarger(hourly: map<Key, Row>, cutoff: int)
    ensures |Unpruned(hourly, cutoff)| <= |hourly|
  {
    SubsetCard(Unpruned(hourly, cutoff).Keys, hourly.Keys);
    assert |Unpruned(hourly, cutoff).Keys| <= |hourly.Keys|;
  }

  lemma RunCons(s: State, step: Step, rest: seq<Step>)
    requires Enabled(s, step) && Legal(Next(s, step), rest)
    ensures Legal(s, [step] + rest) && Run(s, [step] + rest) == Run(Next(s, step), rest)
  {
    assert ([step] + rest)[1..] == rest;
  }

  /** A pass is its three steps in a row, so what holds of every run holds of passes. */
  lemma PassIsSteps(s: State, rawCutoff: int, hourlyCutoff: int)
    ensures
      var steps := [RollUp] + ([DeleteRaw(rawCutoff)] + ([PruneHourly(hourlyCutoff)] + []));
      && Legal(s, steps)
      && Run(s, steps).raw == Pass(s.raw, s.hourly, s.clock, rawCutoff, hourlyCutoff).0
      && Run(s, steps).hourly == Pass(s.raw, s.hourly, s.clock, rawCutoff, hourlyCutoff).1
  {
    var s1 := Next(s, RollUp);
    var s2 := Next(s1, DeleteRaw(rawCutoff));
    RunCons(s2, PruneHourly(hourlyCutoff), []);
    RunCons(s1, DeleteRaw(rawCutoff), [PruneHourly(hourlyCutoff)] + []);
    RunCons(s, RollUp, [DeleteRaw(rawCutoff)] + ([PruneHourly(hourlyCutoff)] + []));
  }

  // ---- In numbers ----

  /** A sample belongs to the hour it falls in, which is over an hour after its start. */
  lemma BucketMeans(s: Sample, now: int)
    ensures KeyOf(s).device == s.device
    ensures KeyOf(s).hour * 3_600_000 <= s.at < (KeyOf(s).hour + 1) * 3_600_000
    ensures Closed(KeyOf(s), now) <==> (KeyOf(s).hour + 1) * 3_600_000 <= now
  {
  }

  lemma SumSnoc(ss: seq<Sample>, s: Sample)
    ensures Sum(ss + [s], Cpu) == Sum(ss, Cpu) + s.cpu && Sum(ss + [s], Mem) == Sum(ss, Mem) + s.mem
    ensures Sum(ss + [s], Disk) == Sum(ss, Disk) + s.disk && Sum(ss + [s], Load1) == Sum(ss, Load1) + s.load1
    ensures Sum([], Cpu) == Sum([], Mem) == Sum([], Disk) == Sum([], Load1) == 0.0
  {
    assert (ss + [s])[..|ss|] == ss;
  }

  lemma AvgTimesCount(ss: seq<Sample>, c: Column)
    requires ss != []
    ensures Avg(ss, c) * (|ss| as real) == Sum(ss, c)
  {
  }

  /** A row's count, and each average times the count, add up its samples. */
  lemma AveragesMean(ss: seq<Sample>)
    requires ss != []
    ensures
      var r, n := Aggregate(ss), |ss| as real;
      && r.samples == |ss|
      && r.cpuAvg * n == Sum(ss, Cpu) && r.memAvg * n == Sum(ss, Mem)
      && r.diskAvg * n == Sum(ss, Disk) && r.load1Avg * n == Sum(ss, Load1)
  {
    AvgTimesCount(ss, Cpu);
    AvgTimesCount(ss, Mem);
    AvgTimesCount(ss, Disk);
    AvgTimesCount(ss, Load1);
  }

  /** Each maximum is reached by a sample and exceeded by none. */
  lemma MaximaMean(ss: seq<Sample>, s: Sample) returns (cpu: Sample, mem: Sample, disk: Sample)
    requires s in ss
    ensures
      var r := Aggregate(ss);
      && s.cpu <= r.cpuMax && s.mem <= r.memMax && s.disk <= r.diskMax
      && cpu in ss && cpu.cpu == r.cpuMax && mem in ss && mem.mem == r.memMax && disk in ss && disk.disk == r.diskMax
  {
    MaxIsGreatest(ss, Cpu);
    MaxIsGreatest(ss, Mem);
    MaxIsGreatest(ss, Disk);
    cpu :| cpu in ss && Value(cpu, Cpu) == Max(ss, Cpu);
    mem :| mem in ss && Value(mem, Mem) == Max(ss, Mem);
    disk :| disk in ss && Value(disk, Disk) == Max(ss, Disk);
    assert Value(s, Cpu) <= Max(ss, Cpu) && Value(s, Mem) <= Max(ss, Mem) && Value(s, Disk) <= Max(ss, Disk);
  }

  /** A pass at `now`, sample by sample: raw rows go that are older than rawHours hours and whose
      hour has a row once rolled up. */
  lemma PassKeepsIff(raw: seq<Sample>, hourly: map<Key, Row>, now: int, rawHours: nat, hourlyDays: nat, s: Sample)
    requires s in raw
    ensures
      var after := Pass(raw, hourly, now, RawCutoff(now, rawHours), HourlyCutoff(now, hourlyDays)).0;
      var over := (KeyOf(s).hour + 1) * 3_600_000 <= now;
      s in after <==> s.at >= now - rawHours * 3_600_000 || !(KeyOf(s) in hourly || over)
  {
    var k := KeyOf(s);
    RolledUpAt(raw, hourly, now, k);
    InMembers(raw, k);
    assert s in In(raw, k);
    DeletedWasWritten(raw, RolledUp(raw, hourly, now), RawCutoff(now, rawHours), s);
    BucketMeans(s, now);
  }

  /** And hour by hour: an hour that is over and has raw samples gets their aggregate, other hours
      keep their row, and rows of hours that began more than hourlyDays days ago go. */
  lemma PassRowIff(raw: seq<Sample>, hourly: map<Key, Row>, now: int, rawHours: nat, hourlyDays: nat, k: Key)
    ensures
      var after := Pass(raw, hourly, now, RawCutoff(now, rawHours), HourlyCutoff(now, hourlyDays)).1;
      var rolled := (k.hour + 1) * 3_600_000 <= now && In(raw, k) != [];
      && (k in after <==> (k in hourly || rolled) && k.hour * 3_600_000 >= now - hourlyDays * 86_400_000)
      && (k in after ==> after[k] == if rolled then Aggregate(In(raw, k)) else hourly[k])
  {
    RolledUpAt(raw, hourly, now, k);
    ClosedMeans(k, now);
  }

  lemma ClosedMeans(k: Key, now: int)
    ensures Closed(k, now) <==> (k.hour + 1) * 3_600_000 <= now
  {
  }
}
