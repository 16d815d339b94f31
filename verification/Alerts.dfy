/** Alert evaluation with a dwell time (src/server/modules/alerts/alert.service.ts). */
module Alerts {
  import opened Prelude

  datatype AlertState = OK | FIRING

  /** One `alert_rule_states` row; `None` below stands for a missing row. */
  datatype Row = Row(state: AlertState, since: Option<int>, lastValue: real, firedAt: Option<int>,
                     resolvedAt: Option<int>)

  datatype Reading = Reading(now: int, value: real, breached: bool)

  datatype Effect = Nothing | Fired | Resolved

  // ---- One rule on one device ----

  function Since(existing: Option<Row>, now: int): int {
    if existing.Some? && existing.value.since.Some? then existing.value.since.value else now
  }

  /** The row after a reading, and whether a notification goes out. `dwell` is forMinutes in
      milliseconds. */
  function Step(existing: Option<Row>, r: Reading, dwell: int): (Option<Row>, Effect) {
    if r.breached then
      var since := Since(existing, r.now);
      var was := if existing.Some? then existing.value.state else OK;
      var fire := r.now - since >= dwell && was != FIRING;
      var firedAt := if fire then Some(r.now) else if existing.Some? then existing.value.firedAt else None;
      var resolvedAt := if fire || existing.None? then None else existing.value.resolvedAt;
      (Some(Row(if fire then FIRING else was, Some(since), r.value, firedAt, resolvedAt)),
       if fire then Fired else Nothing)
    else if existing.Some? then
      var wasFiring := existing.value.state == FIRING;
      (Some(Row(OK, None, r.value, existing.value.firedAt,
                if wasFiring then Some(r.now) else existing.value.resolvedAt)),
       if wasFiring then Resolved else Nothing)
    else (None, Nothing)
  }

  /** The row after all readings of one enabled period. */
  function Fold(rs: seq<Reading>, dwell: int): Option<Row> {
    if rs == [] then None else Step(Fold(rs[..|rs| - 1], dwell), rs[|rs| - 1], dwell).0
  }

  /** What the k-th reading causes. */
  function EffectAt(rs: seq<Reading>, k: nat, dwell: int): Effect
    requires k < |rs|
  {
    Step(Fold(rs[..k], dwell), rs[k], dwell).1
  }

  // ---- What the history alone says ----

  predicate Monotone(rs: seq<Reading>) {
    forall i, j :: 0 <= i <= j < |rs| ==> rs[i].now <= rs[j].now
  }

  /** i starts the breached suffix of the first n readings. */
  predicate BreachStart(rs: seq<Reading>, n: nat, i: nat)
    requires n <= |rs|
  {
    i < n && (forall j :: i <= j < n ==> rs[j].breached) && (i == 0 || !rs[i - 1].breached)
  }

  /** Where that suffix starts, or n when the latest reading is healthy. */
  function Start(rs: seq<Reading>, n: nat): (i: nat)
    requires n <= |rs|
    ensures i <= n
  {
    if n == 0 || !rs[n - 1].breached then n else Start(rs, n - 1)
  }

  /** The suffix is the maximal one: nothing else starts it. */
  lemma {:induction false} StartIsMaximal(rs: seq<Reading>, n: nat, i: nat)
    requires n <= |rs|
    ensures BreachStart(rs, n, i) <==> i == Start(rs, n) && i < n
  {
    if n > 0 && rs[n - 1].breached && i < n - 1 {
      StartIsMaximal(rs, n - 1, i);
      assert BreachStart(rs, n, i) <==> BreachStart(rs, n - 1, i);
    } else if n > 1 && rs[n - 1].breached && rs[n - 2].breached {
      StartBeforeEnd(rs, n - 1);
    }
  }

  lemma {:induction false} StartBeforeEnd(rs: seq<Reading>, n: nat)
    requires 0 < n <= |rs|
    ensures Start(rs, n) < n <==> rs[n - 1].breached
  {
    if n > 1 && rs[n - 1].breached {
      StartBeforeEnd(rs, n - 1);
    }
  }

  /** After n readings the breach has lasted the dwell time. */
  predicate Alarmed(rs: seq<Reading>, n: nat, dwell: int)
    requires n <= |rs|
  {
    Start(rs, n) < n && rs[n - 1].now - rs[Start(rs, n)].now >= dwell
  }

  /** When the current breached suffix began. */
  function BreachSince(rs: seq<Reading>, n: nat): Option<int>
    requires n <= |rs|
  {
    if Start(rs, n) < n then Some(rs[Start(rs, n)].now) else None
  }

  /** When the alarm last went on. */
  function LastFire(rs: seq<Reading>, n: nat, dwell: int): Option<int>
    requires n <= |rs|
  {
    if n == 0 then None
    else if !Alarmed(rs, n - 1, dwell) && Alarmed(rs, n, dwell) then Some(rs[n - 1].now)
    else LastFire(rs, n - 1, dwell)
  }

  /** When it went off again, if it has not gone on since. */
  function LastResolve(rs: seq<Reading>, n: nat, dwell: int): Option<int>
    requires n <= |rs|
  {
    if n == 0 || (!Alarmed(rs, n - 1, dwell) && Alarmed(rs, n, dwell)) then None
    else if Alarmed(rs, n - 1, dwell) && !Alarmed(rs, n, dwell) then Some(rs[n - 1].now)
    else LastResolve(rs, n - 1, dwell)
  }

  /** The row says exactly that: it exists once anything breached, `since` is when the
      breached suffix began, it is FIRING iff alarmed, and it dates the last fire and the
      resolve after it. */
  predicate Describes(row: Option<Row>, rs: seq<Reading>, n: nat, dwell: int)
    requires n <= |rs|
  {
    && (row.None? <==> forall j :: 0 <= j < n ==> !rs[j].breached)
    && ((row.Some? && row.value.state == FIRING) <==> Alarmed(rs, n, dwell))
    && (if row.Some? then row.value.since else None) == BreachSince(rs, n)
    && (if row.Some? then row.value.firedAt else None) == LastFire(rs, n, dwell)
    && (if row.Some? then row.value.resolvedAt else None) == LastResolve(rs, n, dwell)
    && (row.Some? ==> n > 0 && row.value.lastValue == rs[n - 1].value)
  }

  /** How one reading moves the history. */
  lemma HistoryStep(rs: seq<Reading>, n: nat, dwell: int)
    requires n < |rs| && Monotone(rs)
    ensures !rs[n].breached ==> BreachSince(rs, n + 1) == None && !Alarmed(rs, n + 1, dwell)
    ensures rs[n].breached ==>
      var since := if BreachSince(rs, n).Some? then BreachSince(rs, n).value else rs[n].now;
      && BreachSince(rs, n + 1) == Some(since)
      && (Alarmed(rs, n + 1, dwell) <==> rs[n].now - since >= dwell)
      && (Alarmed(rs, n, dwell) ==> Alarmed(rs, n + 1, dwell))
  {
    if n > 0 {
      StartBeforeEnd(rs, n);
      assert rs[n - 1].now <= rs[n].now;
    }
  }

  /** One reading keeps the row and the history in agreement and notifies exactly on a change. */
  lemma StepDescribes(row: Option<Row>, rs: seq<Reading>, n: nat, dwell: int)
    requires n < |rs| && Monotone(rs) && Describes(row, rs, n, dwell)
    ensures Describes(Step(row, rs[n], dwell).0, rs, n + 1, dwell)
    ensures Step(row, rs[n], dwell).1 ==
            if Alarmed(rs, n, dwell) == Alarmed(rs, n + 1, dwell) then Nothing
            else if Alarmed(rs, n + 1, dwell) then Fired else Resolved
  {
    HistoryStep(rs, n, dwell);
  }

  /** After any readings in clock order the row is determined by the history. */
  lemma {:induction false} RowDescribesHistory(rs: seq<Reading>, n: nat, dwell: int)
    requires n <= |rs| && Monotone(rs)
    ensures Describes(Fold(rs[..n], dwell), rs, n, dwell)
  {
    if n > 0 {
      RowDescribesHistory(rs, n - 1, dwell);
      assert rs[..n][..n - 1] == rs[..n - 1];
      StepDescribes(Fold(rs[..n - 1], dwell), rs, n - 1, dwell);
    }
  }

  /** The dwell time has just been reached at reading k, within its breached stretch. */
  predicate Crosses(rs: seq<Reading>, k: nat, dwell: int)
    requires k < |rs|
  {
    var i := Start(rs, k + 1);
    i <= k && rs[k].now - rs[i].now >= dwell && (i < k ==> rs[k - 1].now - rs[i].now < dwell)
  }

  lemma FlagsAt(rs: seq<Reading>, k: nat, dwell: int)
    requires k < |rs| && Monotone(rs)
    ensures Crosses(rs, k, dwell) <==> !Alarmed(rs, k, dwell) && Alarmed(rs, k + 1, dwell)
    ensures !rs[k].breached && Alarmed(rs, k, dwell) <==> Alarmed(rs, k, dwell) && !Alarmed(rs, k + 1, dwell)
  {
    if k > 0 {
      StartBeforeEnd(rs, k);
      assert rs[k - 1].now <= rs[k].now;
    }
  }

  /** A notification fires at exactly the readings where a breach first completes its dwell,
      and resolves at exactly the first healthy reading after such a breach. */
  lemma NotifiesExactly(rs: seq<Reading>, k: nat, dwell: int)
    requires k < |rs| && Monotone(rs)
    ensures EffectAt(rs, k, dwell) == Fired <==> Crosses(rs, k, dwell)
    ensures EffectAt(rs, k, dwell) == Resolved <==> !rs[k].breached && Alarmed(rs, k, dwell)
  {
    EffectIsFlip(rs, k, dwell);
    FlagsAt(rs, k, dwell);
  }

  function Flags(rs: seq<Reading>, dwell: int): seq<bool> {
    seq(|rs| + 1, n requires 0 <= n <= |rs| => Alarmed(rs, n, dwell))
  }

  lemma {:induction false} FlipBetween(flags: seq<bool>, a: nat, b: nat) returns (k: nat)
    requires a <= b < |flags| && flags[a] != flags[b]
    ensures a <= k < b && flags[k] == flags[a] && flags[k + 1] != flags[a]
    decreases b - a
  {
    if flags[a + 1] != flags[a] {
      k := a;
    } else {
      k := FlipBetween(flags, a + 1, b);
    }
  }

  /** A notification is a change of the alarmed flag. */
  lemma EffectIsFlip(rs: seq<Reading>, k: nat, dwell: int)
    requires k < |rs| && Monotone(rs)
    ensures
      var flags := Flags(rs, dwell);
      EffectAt(rs, k, dwell) == if flags[k] == flags[k + 1] then Nothing else if flags[k + 1] then Fired else Resolved
  {
    RowDescribesHistory(rs, k, dwell);
    StepDescribes(Fold(rs[..k], dwell), rs, k, dwell);
  }

  /** Fires and resolves strictly alternate: between two of one kind lies one of the other. */
  lemma Alternate(rs: seq<Reading>, i: nat, j: nat, dwell: int) returns (k: nat)
    requires Monotone(rs) && i < j < |rs|
    requires EffectAt(rs, i, dwell) != Nothing && EffectAt(rs, i, dwell) == EffectAt(rs, j, dwell)
    ensures i < k < j
    ensures EffectAt(rs, k, dwell) == if EffectAt(rs, i, dwell) == Fired then Resolved else Fired
  {
    EffectIsFlip(rs, i, dwell);
    EffectIsFlip(rs, j, dwell);
    k := FlipBetween(Flags(rs, dwell), i + 1, j);
    EffectIsFlip(rs, k, dwell);
  }

  /** Every breach that lasts its dwell was notified, once it had, within its own stretch. */
  lemma AlarmedWasFired(rs: seq<Reading>, n: nat, dwell: int) returns (k: nat)
    requires Monotone(rs) && n <= |rs| && Alarmed(rs, n, dwell)
    ensures Start(rs, n) <= k < n && EffectAt(rs, k, dwell) == Fired
  {
    var i := Start(rs, n);
    StartIsMaximal(rs, n, i);
    if i > 0 {
      StartBeforeEnd(rs, i);
    }
    k := FlipBetween(Flags(rs, dwell), i, n);
    EffectIsFlip(rs, k, dwell);
  }

  /** The first notification of a period is a fire, and one breached stretch fires once. */
  lemma OneFirePerStretch(rs: seq<Reading>, i: nat, j: nat, dwell: int)
    requires Monotone(rs) && i < j < |rs|
    requires EffectAt(rs, i, dwell) == Fired && EffectAt(rs, j, dwell) == Fired
    ensures exists k :: i < k < j && !rs[k].breached
  {
    var k := Alternate(rs, i, j, dwell);
    NotifiesExactly(rs, k, dwell);
  }

  lemma FirstIsFire(rs: seq<Reading>, i: nat, dwell: int)
    requires Monotone(rs) && i < |rs| && EffectAt(rs, i, dwell) == Resolved
    ensures exists k :: 0 <= k < i && EffectAt(rs, k, dwell) == Fired
  {
    EffectIsFlip(rs, i, dwell);
    var k := FlipBetween(Flags(rs, dwell), 0, i);
    EffectIsFlip(rs, k, dwell);
  }

  /** Disabling deletes the row; readings of an evaluation already under way still land
      afterwards. The next enabled period starts clean exactly when none of them breached. */
  lemma CleanSlateIff(late: seq<Reading>, dwell: int)
    requires Monotone(late)
    ensures Fold(late, dwell).None? <==> forall j :: 0 <= j < |late| ==> !late[j].breached
  {
    RowDescribesHistory(late, |late|, dwell);
    assert late[..|late|] == late;
  }

  // ---- The evaluation pass ----

  datatype Metric = OFFLINE | CPU | MEMORY | DISK

  datatype Rule = Rule(id: string, metric: Metric, threshold: real, forMinutes: int)

  datatype Sample = Sample(cpu: real, mem: real, disk: real)

  datatype Device = Device(id: string, online: bool, latest: Option<Sample>)

  function ReadingOf(rule: Rule, d: Device, now: int): Reading {
    if rule.metric == OFFLINE then Reading(now, if d.online then 0.0 else 1.0, !d.online)
    else if d.latest.None? then Reading(now, 0.0, false)
    else
      var m := d.latest.value;
      var value := match rule.metric case CPU => m.cpu case MEMORY => m.mem case _ => m.disk;
      Reading(now, value, value >= rule.threshold)
  }

  /** A reading is breached exactly if an OFFLINE rule meets a device that is not online, or the
      figure the rule names is at or above its threshold; without a sample nothing is. */
  lemma BreachedIff(rule: Rule, d: Device, now: int)
    ensures ReadingOf(rule, d, now).breached <==>
      || (rule.metric == OFFLINE && !d.online)
      || (rule.metric == CPU && d.latest.Some? && d.latest.value.cpu >= rule.threshold)
      || (rule.metric == MEMORY && d.latest.Some? && d.latest.value.mem >= rule.threshold)
      || (rule.metric == DISK && d.latest.Some? && d.latest.value.disk >= rule.threshold)
    ensures
      var r := ReadingOf(rule, d, now);
      && r.now == now
      && (rule.metric == OFFLINE ==> r.value == if d.online then 0.0 else 1.0)
      && (rule.metric != OFFLINE && d.latest.None? ==> r.value == 0.0)
      && (rule.metric == CPU && d.latest.Some? ==> r.value == d.latest.value.cpu)
      && (rule.metric == MEMORY && d.latest.Some? ==> r.value == d.latest.value.mem)
      && (rule.metric == DISK && d.latest.Some? ==> r.value == d.latest.value.disk)
  {
  }

  /** The device gives the rule no reason to fire. */
  predicate Healthy(rule: Rule, d: Device) {
    && (rule.metric == OFFLINE ==> d.online)
    && (d.latest.Some? ==>
          && (rule.metric == CPU ==> d.latest.value.cpu < rule.threshold)
          && (rule.metric == MEMORY ==> d.latest.value.mem < rule.threshold)
          && (rule.metric == DISK ==> d.latest.value.disk < rule.threshold))
  }

  type Key = (string, string)

  function Lookup(states: map<Key, Row>, k: Key): Option<Row> {
    if k in states then Some(states[k]) else None
  }

  function Dwell(rule: Rule): int {
    rule.forMinutes * 60_000
  }

  function Outcome(states: map<Key, Row>, rule: Rule, d: Device, now: int): (Option<Row>, Effect) {
    Step(Lookup(states, (rule.id, d.id)), ReadingOf(rule, d, now), Dwell(rule))
  }

  /** The table after one rule's pass over its devices, in order. */
  function StepAll(states: map<Key, Row>, rule: Rule, ds: seq<Device>, now: int): map<Key, Row> {
    if ds == [] then states
    else
      var d := ds[|ds| - 1];
      var before := StepAll(states, rule, ds[..|ds| - 1], now);
      var row := Outcome(before, rule, d, now).0;
      if row.Some? then before[(rule.id, d.id) := row.value] else before
  }

  /** What that pass sends, device by device. */
  function Notices(states: map<Key, Row>, rule: Rule, ds: seq<Device>, now: int): seq<(Key, Effect, int)> {
    if ds == [] then []
    else
      var front, d := ds[..|ds| - 1], ds[|ds| - 1];
      Notices(states, rule, front, now) +
        Notice(rule, d, Outcome(StepAll(states, rule, front, now), rule, d, now).1, now)
  }

  function Notice(rule: Rule, d: Device, effect: Effect, now: int): seq<(Key, Effect, int)> {
    if effect == Nothing then [] else [((rule.id, d.id), effect, now)]
  }

  /** A notice names its rule and device, says what happened and when; nothing is sent for nothing. */
  lemma NoticeMeans(rule: Rule, d: Device, effect: Effect, now: int)
    ensures effect == Fired ==> Notice(rule, d, effect, now) == [((rule.id, d.id), Fired, now)]
    ensures effect == Resolved ==> Notice(rule, d, effect, now) == [((rule.id, d.id), Resolved, now)]
    ensures effect == Nothing ==> Notice(rule, d, effect, now) == []
  {
  }

  lemma StepAllMore(states: map<Key, Row>, rule: Rule, ds: seq<Device>, d: Device, now: int)
    ensures
      var before := StepAll(states, rule, ds, now);
      var (row, effect) := Outcome(before, rule, d, now);
      && StepAll(states, rule, ds + [d], now) == (if row.Some? then before[(rule.id, d.id) := row.value] else before)
      && Notices(states, rule, ds + [d], now) == Notices(states, rule, ds, now) + Notice(rule, d, effect, now)
  {
    assert (ds + [d])[..|ds|] == ds;
  }

  function CountFired(ns: seq<(Key, Effect, int)>): nat {
    if ns == [] then 0 else CountFired(ns[..|ns| - 1]) + if ns[|ns| - 1].1 == Fired then 1 else 0
  }

  lemma {:induction false} CountFiredAppend(a: seq<(Key, Effect, int)>, b: seq<(Key, Effect, int)>)
    ensures CountFired(a + b) == CountFired(a) + CountFired(b)
  {
    if b == [] {
      assert a + b == a;
    } else {
      assert (a + b)[..|a + b| - 1] == a + b[..|b| - 1];
      CountFiredAppend(a, b[..|b| - 1]);
    }
  }

  predicate DistinctDevices(ds: seq<Device>) {
    forall i, j :: 0 <= i < j < |ds| ==> ds[i].id != ds[j].id
  }

  /** The table without one rule's rows. */
  function Without<V>(m: map<Key, V>, ruleId: string): map<Key, V> {
    map k | k in m && k.0 != ruleId :: m[k]
  }

  function Past(history: map<Key, seq<Reading>>, k: Key): seq<Reading> {
    if k in history then history[k] else []
  }

  /** One stored row against the readings taken since it was last cleared. */
  predicate Tracks(rules: map<string, Rule>, row: Option<Row>, h: seq<Reading>, clock: int, k: Key) {
    if k.0 in rules then
      row == Fold(h, Dwell(rules[k.0])) && Monotone(h) && (forall i :: 0 <= i < |h| ==> h[i].now <= clock)
    else row.None?
  }

  lemma TracksStep(rules: map<string, Rule>, row: Option<Row>, h: seq<Reading>, clock: int, k: Key, r: Reading)
    requires k.0 in rules && Tracks(rules, row, h, clock, k) && clock <= r.now
    ensures Tracks(rules, Step(row, r, Dwell(rules[k.0])).0, h + [r], r.now, k)
  {
    assert (h + [r])[..|h|] == h;
  }

  ghost predicate AllTrack(rules: map<string, Rule>, states: map<Key, Row>, history: map<Key, seq<Reading>>,
                           clock: int)
  {
    forall k: Key :: Tracks(rules, Lookup(states, k), Past(history, k), clock, k)
  }

  /** The readings a pass adds to each key's history. */
  function Recorded(history: map<Key, seq<Reading>>, rule: Rule, ds: seq<Device>, now: int): map<Key, seq<Reading>> {
    if ds == [] then history
    else
      var before, d := Recorded(history, rule, ds[..|ds| - 1], now), ds[|ds| - 1];
      before[(rule.id, d.id) := Past(before, (rule.id, d.id)) + [ReadingOf(rule, d, now)]]
  }

  lemma TrackOne(rules: map<string, Rule>, states: map<Key, Row>, history: map<Key, seq<Reading>>, clock: int,
                 rule: Rule, d: Device, now: int)
    requires AllTrack(rules, states, history, clock) && clock <= now && rule.id in rules && rules[rule.id] == rule
    ensures
      var k := (rule.id, d.id);
      var row := Outcome(states, rule, d, now).0;
      AllTrack(rules, if row.Some? then states[k := row.value] else states,
               history[k := Past(history, k) + [ReadingOf(rule, d, now)]], now)
  {
    var k := (rule.id, d.id);
    var row := Outcome(states, rule, d, now).0;
    var t := if row.Some? then states[k := row.value] else states;
    var g := history[k := Past(history, k) + [ReadingOf(rule, d, now)]];
    forall j: Key ensures Tracks(rules, Lookup(t, j), Past(g, j), now, j) {
      assert Tracks(rules, Lookup(states, j), Past(history, j), clock, j);
      if j == k {
        TracksStep(rules, Lookup(states, k), Past(history, k), clock, k, ReadingOf(rule, d, now));
      }
    }
  }

  lemma {:induction false} TrackPass(rules: map<string, Rule>, states: map<Key, Row>, history: map<Key, seq<Reading>>,
                                     clock: int, rule: Rule, ds: seq<Device>, now: int)
    requires AllTrack(rules, states, history, clock) && clock <= now && rule.id in rules && rules[rule.id] == rule
    ensures AllTrack(rules, StepAll(states, rule, ds, now), Recorded(history, rule, ds, now), now)
  {
    if ds == [] {
      forall k: Key ensures Tracks(rules, Lookup(states, k), Past(history, k), now, k) {
        assert Tracks(rules, Lookup(states, k), Past(history, k), clock, k);
      }
    } else {
      var front := ds[..|ds| - 1];
      TrackPass(rules, states, history, clock, rule, front, now);
      TrackOne(rules, StepAll(states, rule, front, now), Recorded(history, rule, front, now), now,
               rule, ds[|ds| - 1], now);
    }
  }

  /** Each listed device contributes one reading, and no other key is touched. */
  lemma {:induction false} RecordedAt(history: map<Key, seq<Reading>>, rule: Rule, ds: seq<Device>, now: int, d: Device)
    requires DistinctDevices(ds)
    ensures d in ds ==>
      Past(Recorded(history, rule, ds, now), (rule.id, d.id))
        == Past(history, (rule.id, d.id)) + [ReadingOf(rule, d, now)]
    ensures (forall e :: e in ds ==> e.id != d.id) ==>
      Past(Recorded(history, rule, ds, now), (rule.id, d.id)) == Past(history, (rule.id, d.id))
  {
    if ds != [] {
      var front, last := ds[..|ds| - 1], ds[|ds| - 1];
      RecordedAt(history, rule, front, now, d);
      assert ds == front + [last];
      assert forall e :: e in front ==> e.id != last.id;
      if (forall e :: e in ds ==> e.id != d.id) {
        assert last in ds;
        assert forall e :: e in front ==> e in ds;
      }
    }
  }

  lemma TrackWithout(rules: map<string, Rule>, states: map<Key, Row>, history: map<Key, seq<Reading>>, clock: int,
                     ruleId: string)
    requires AllTrack(rules, states, history, clock)
    ensures AllTrack(rules, Without(states, ruleId), Without(history, ruleId), clock)
    ensures forall k: Key ::
      k.0 == ruleId ==> Lookup(Without(states, ruleId), k) == None && Past(Without(history, ruleId), k) == []
  {
    forall k: Key
      ensures Tracks(rules, Lookup(Without(states, ruleId), k), Past(Without(history, ruleId), k), clock, k)
    {
      assert Tracks(rules, Lookup(states, k), Past(history, k), clock, k);
    }
  }

  /** What one rule's pass over ds leaves: the table, the notices sent and the count. */
  predicate Passed(s0: map<Key, Row>, sent0: seq<(Key, Effect, int)>, rule: Rule, ds: seq<Device>, now: int,
                   s: map<Key, Row>, sent: seq<(Key, Effect, int)>, fired: nat)
  {
    && s == StepAll(s0, rule, ds, now)
    && sent == sent0 + Notices(s0, rule, ds, now)
    && fired == CountFired(Notices(s0, rule, ds, now))
  }

  lemma PassMore(s0: map<Key, Row>, sent0: seq<(Key, Effect, int)>, rule: Rule, ds: seq<Device>, i: nat, now: int,
                 s: map<Key, Row>, sent: seq<(Key, Effect, int)>, fired: nat)
    requires i < |ds| && Passed(s0, sent0, rule, ds[..i], now, s, sent, fired)
    ensures
      var (row, effect) := Outcome(s, rule, ds[i], now);
      Passed(s0, sent0, rule, ds[..i + 1], now, if row.Some? then s[(rule.id, ds[i].id) := row.value] else s,
             sent + Notice(rule, ds[i], effect, now), fired + if effect == Fired then 1 else 0)
  {
    NoticesMore(s0, rule, ds, i, now);
    Reassociate(sent0, Notices(s0, rule, ds[..i], now), Notice(rule, ds[i], Outcome(s, rule, ds[i], now).1, now));
  }

  lemma NoticesMore(s0: map<Key, Row>, rule: Rule, ds: seq<Device>, i: nat, now: int)
    requires i < |ds|
    ensures
      var s := StepAll(s0, rule, ds[..i], now);
      var (row, effect) := Outcome(s, rule, ds[i], now);
      var before, after := Notices(s0, rule, ds[..i], now), Notices(s0, rule, ds[..i + 1], now);
      && StepAll(s0, rule, ds[..i + 1], now) == (if row.Some? then s[(rule.id, ds[i].id) := row.value] else s)
      && after == before + Notice(rule, ds[i], effect, now)
      && CountFired(after) == CountFired(before) + if effect == Fired then 1 else 0
  {
    StepAllMore(s0, rule, ds[..i], ds[i], now);
    assert ds[..i + 1] == ds[..i] + [ds[i]];
    var effect := Outcome(StepAll(s0, rule, ds[..i], now), rule, ds[i], now).1;
    CountNotice(Notices(s0, rule, ds[..i], now), rule, ds[i], effect, now);
  }

  lemma CountNotice(ns: seq<(Key, Effect, int)>, rule: Rule, d: Device, effect: Effect, now: int)
    ensures CountFired(ns + Notice(rule, d, effect, now)) == CountFired(ns) + if effect == Fired then 1 else 0
  {
    CountFiredAppend(ns, Notice(rule, d, effect, now));
  }

  /** A pass over several rules: the table, the notices and the histories it leaves. */
  function StepRules(states: map<Key, Row>, rules: seq<Rule>, fleet: seq<seq<Device>>, now: int): map<Key, Row>
    requires |rules| == |fleet|
  {
    if rules == [] then states
    else
      var n := |rules| - 1;
      StepAll(StepRules(states, rules[..n], fleet[..n], now), rules[n], fleet[n], now)
  }

  function RuleNotices(states: map<Key, Row>, rules: seq<Rule>, fleet: seq<seq<Device>>,
                       now: int): seq<(Key, Effect, int)>
    requires |rules| == |fleet|
  {
    if rules == [] then []
    else
      var n := |rules| - 1;
      RuleNotices(states, rules[..n], fleet[..n], now)
      + Notices(StepRules(states, rules[..n], fleet[..n], now), rules[n], fleet[n], now)
  }

  function RecordedRules(history: map<Key, seq<Reading>>, rules: seq<Rule>, fleet: seq<seq<Device>>,
                         now: int): map<Key, seq<Reading>>
    requires |rules| == |fleet|
  {
    if rules == [] then history
    else
      var n := |rules| - 1;
      Recorded(RecordedRules(history, rules[..n], fleet[..n], now), rules[n], fleet[n], now)
  }

  predicate Evaluated(s0: map<Key, Row>, sent0: seq<(Key, Effect, int)>, h0: map<Key, seq<Reading>>,
                      rules: seq<Rule>, fleet: seq<seq<Device>>, now: int,
                      s: map<Key, Row>, sent: seq<(Key, Effect, int)>, h: map<Key, seq<Reading>>, fired: nat)
    requires |rules| == |fleet|
  {
    && s == StepRules(s0, rules, fleet, now)
    && sent == sent0 + RuleNotices(s0, rules, fleet, now)
    && h == RecordedRules(h0, rules, fleet, now)
    && fired == CountFired(RuleNotices(s0, rules, fleet, now))
  }

  lemma EvaluatedMore(s0: map<Key, Row>, sent0: seq<(Key, Effect, int)>, h0: map<Key, seq<Reading>>,
                      rules: seq<Rule>, fleet: seq<seq<Device>>, i: nat, now: int,
                      s: map<Key, Row>, sent: seq<(Key, Effect, int)>, h: map<Key, seq<Reading>>, fired: nat)
    requires i < |rules| == |fleet| && Evaluated(s0, sent0, h0, rules[..i], fleet[..i], now, s, sent, h, fired)
    ensures
      var more := Notices(s, rules[i], fleet[i], now);
      Evaluated(s0, sent0, h0, rules[..i + 1], fleet[..i + 1], now, StepAll(s, rules[i], fleet[i], now), sent + more,
                Recorded(h, rules[i], fleet[i], now), fired + CountFired(more))
  {
    var before, more := RuleNotices(s0, rules[..i], fleet[..i], now), Notices(s, rules[i], fleet[i], now);
    assert rules[..i + 1][..i] == rules[..i] && fleet[..i + 1][..i] == fleet[..i];
    Reassociate(sent0, before, more);
    CountFiredAppend(before, more);
  }

  // ---- What a pass does, in the devices' own figures ----

  lemma HealthyDevice(states: map<Key, Row>, rule: Rule, d: Device, now: int)
    requires Healthy(rule, d)
    ensures
      var (row, effect) := Outcome(states, rule, d, now);
      && (row.Some? <==> (rule.id, d.id) in states) && effect != Fired
      && forall n :: n in Notice(rule, d, effect, now) ==> n.1 == Resolved
  {
    BreachedIff(rule, d, now);
  }

  /** A pass over healthy devices fires nothing and creates no row. */
  lemma {:induction false} HealthyRule(states: map<Key, Row>, rule: Rule, ds: seq<Device>, now: int)
    requires forall d :: d in ds ==>
      && (rule.metric == OFFLINE ==> d.online)
      && (d.latest.Some? ==>
            && (rule.metric == CPU ==> d.latest.value.cpu < rule.threshold)
            && (rule.metric == MEMORY ==> d.latest.value.mem < rule.threshold)
            && (rule.metric == DISK ==> d.latest.value.disk < rule.threshold))
    ensures StepAll(states, rule, ds, now).Keys == states.Keys
    ensures forall n :: n in Notices(states, rule, ds, now) ==> n.1 == Resolved
    ensures CountFired(Notices(states, rule, ds, now)) == 0
  {
    if ds != [] {
      var front, d := ds[..|ds| - 1], ds[|ds| - 1];
      assert ds == front + [d];
      HealthyRule(states, rule, front, now);
      assert Healthy(rule, d);
      HealthyDevice(StepAll(states, rule, front, now), rule, d, now);
      var effect := Outcome(StepAll(states, rule, front, now), rule, d, now).1;
      CountNotice(Notices(states, rule, front, now), rule, d, effect, now);
    }
  }

  lemma {:induction false} HealthyPass(states: map<Key, Row>, rules: seq<Rule>, fleet: seq<seq<Device>>, now: int)
    requires |rules| == |fleet|
    requires forall i :: 0 <= i < |rules| ==> forall d :: d in fleet[i] ==> Healthy(rules[i], d)
    ensures StepRules(states, rules, fleet, now).Keys == states.Keys
    ensures CountFired(RuleNotices(states, rules, fleet, now)) == 0
  {
    if rules != [] {
      var n := |rules| - 1;
      HealthyPass(states, rules[..n], fleet[..n], now);
      var before := StepRules(states, rules[..n], fleet[..n], now);
      HealthyRule(before, rules[n], fleet[n], now);
      CountFiredAppend(RuleNotices(states, rules[..n], fleet[..n], now), Notices(before, rules[n], fleet[n], now));
    }
  }

  /** The readings a rule takes of a device over time. */
  function ReadingsOf(rule: Rule, ds: seq<Device>, times: seq<int>): seq<Reading>
    requires |ds| == |times|
  {
    seq(|ds|, i requires 0 <= i < |ds| => ReadingOf(rule, ds[i], times[i]))
  }

  /** The device is offline under an OFFLINE rule, or its figure is at or above the threshold. */
  predicate InBreach(rule: Rule, d: Device) {
    || (rule.metric == OFFLINE && !d.online)
    || (rule.metric == CPU && d.latest.Some? && d.latest.value.cpu >= rule.threshold)
    || (rule.metric == MEMORY && d.latest.Some? && d.latest.value.mem >= rule.threshold)
    || (rule.metric == DISK && d.latest.Some? && d.latest.value.disk >= rule.threshold)
  }

  lemma ReadingsBreached(rule: Rule, ds: seq<Device>, times: seq<int>)
    requires |ds| == |times|
    ensures forall i :: 0 <= i < |ds| ==>
      var r := ReadingsOf(rule, ds, times)[i];
      r.now == times[i] && (r.breached <==> InBreach(rule, ds[i]))
  {
  }

  /** An alert is firing after readings of a device if and only if every one from some moment on
      was in breach and forMinutes minutes lie between the first and the last of these. */
  lemma FiringIff(rule: Rule, ds: seq<Device>, times: seq<int>)
    requires |ds| == |times| && forall i, j :: 0 <= i <= j < |times| ==> times[i] <= times[j]
    ensures
      var row := Fold(ReadingsOf(rule, ds, times), Dwell(rule));
      row.Some? && row.value.state == FIRING <==>
        exists a :: 0 <= a < |ds| && times[|ds| - 1] - times[a] >= rule.forMinutes * 60_000
                    && forall i :: a <= i < |ds| ==> InBreach(rule, ds[i])
  {
    var rs := ReadingsOf(rule, ds, times);
    ReadingsBreached(rule, ds, times);
    FoldFiringIff(rs, Dwell(rule));
    SameStretch(rule, ds, times, rule.forMinutes * 60_000);
  }

  ghost predicate Lasted(rs: seq<Reading>, dwell: int) {
    exists a :: 0 <= a < |rs| && rs[|rs| - 1].now - rs[a].now >= dwell && forall i :: a <= i < |rs| ==> rs[i].breached
  }

  lemma SameStretch(rule: Rule, ds: seq<Device>, times: seq<int>, dwell: int)
    requires |ds| == |times|
    ensures Lasted(ReadingsOf(rule, ds, times), dwell) <==>
      exists a :: 0 <= a < |ds| && times[|ds| - 1] - times[a] >= dwell
                  && forall i :: a <= i < |ds| ==> InBreach(rule, ds[i])
  {
    var rs, n := ReadingsOf(rule, ds, times), |ds|;
    if a :| 0 <= a < n && rs[n - 1].now - rs[a].now >= dwell && forall i :: a <= i < n ==> rs[i].breached {
      SameSuffix(rule, ds, times, a);
    }
    if a :| 0 <= a < n && times[n - 1] - times[a] >= dwell && forall i :: a <= i < n ==> InBreach(rule, ds[i]) {
      SameSuffix(rule, ds, times, a);
    }
  }

  lemma SameSuffix(rule: Rule, ds: seq<Device>, times: seq<int>, a: nat)
    requires a < |ds| == |times|
    ensures
      var rs := ReadingsOf(rule, ds, times);
      && rs[|ds| - 1].now - rs[a].now == times[|ds| - 1] - times[a]
      && ((forall i :: a <= i < |ds| ==> rs[i].breached) <==> forall i :: a <= i < |ds| ==> InBreach(rule, ds[i]))
  {
    ReadingsBreached(rule, ds, times);
  }

  lemma FoldFiringIff(rs: seq<Reading>, dwell: int)
    requires Monotone(rs)
    ensures
      var row := Fold(rs, dwell);
      row.Some? && row.value.state == FIRING <==> Lasted(rs, dwell)
  {
    RowDescribesHistory(rs, |rs|, dwell);
    assert rs[..|rs|] == rs;
    AlarmedIff(rs, |rs|, dwell);
  }

  lemma AlarmedIff(rs: seq<Reading>, n: nat, dwell: int)
    requires n <= |rs| && Monotone(rs)
    ensures Alarmed(rs, n, dwell) <==>
      exists a :: 0 <= a < n && rs[n - 1].now - rs[a].now >= dwell && forall i :: a <= i < n ==> rs[i].breached
  {
    var k := Start(rs, n);
    StartIsMaximal(rs, n, k);
    if a :| 0 <= a < n && rs[n - 1].now - rs[a].now >= dwell && forall i :: a <= i < n ==> rs[i].breached {
      StartLeast(rs, n, a);
      assert rs[k].now <= rs[a].now;
    }
    if k < n {
      assert forall i :: k <= i < n ==> rs[i].breached;
    }
  }

  lemma {:induction false} StartLeast(rs: seq<Reading>, n: nat, a: nat)
    requires a < n <= |rs| && forall i :: a <= i < n ==> rs[i].breached
    ensures Start(rs, n) <= a
  {
    if a < n - 1 {
      StartLeast(rs, n - 1, a);
    }
  }

  /** One pass over a device in breach: its row says since when, and fires once it has lasted. */
  lemma {:induction false} BreachedPass(states: map<Key, Row>, rule: Rule, ds: seq<Device>, d: Device, now: int)
    requires DistinctDevices(ds) && d in ds
    requires
      || (rule.metric == OFFLINE && !d.online)
      || (rule.metric == CPU && d.latest.Some? && d.latest.value.cpu >= rule.threshold)
      || (rule.metric == MEMORY && d.latest.Some? && d.latest.value.mem >= rule.threshold)
      || (rule.metric == DISK && d.latest.Some? && d.latest.value.disk >= rule.threshold)
    ensures
      var k := (rule.id, d.id);
      var after := StepAll(states, rule, ds, now);
      var since := if k in states && states[k].since.Some? then states[k].since.value else now;
      && k in after && after[k].since == Some(since)
      && (after[k].state == FIRING <==>
            now - since >= rule.forMinutes * 60_000 || (k in states && states[k].state == FIRING))
  {
    BreachedIff(rule, d, now);
    OneDevicePass(states, rule, ds, d, now);
  }

  lemma TwoDistinctIff(d: Device, e: Device)
    ensures DistinctDevices([d, e]) <==> d.id != e.id
  {
    if DistinctDevices([d, e]) {
      assert [d, e][0].id != [d, e][1].id;
    }
  }

  /** A device's row takes one step in a pass. */
  lemma {:induction false} OneDevicePass(states: map<Key, Row>, rule: Rule, ds: seq<Device>, d: Device, now: int)
    requires DistinctDevices(ds)
    ensures d in ds ==> Lookup(StepAll(states, rule, ds, now), (rule.id, d.id)) == Outcome(states, rule, d, now).0
    ensures (forall e :: e in ds ==> e.id != d.id) ==>
      Lookup(StepAll(states, rule, ds, now), (rule.id, d.id)) == Lookup(states, (rule.id, d.id))
  {
    if ds != [] {
      var front, last := ds[..|ds| - 1], ds[|ds| - 1];
      assert ds == front + [last];
      OneDevicePass(states, rule, front, d, now);
      assert forall e :: e in front ==> e.id != last.id;
      if (forall e :: e in ds ==> e.id != d.id) {
        assert last in ds;
      }
    }
  }

  class AlertBook {
    var rules: map<string, Rule>
    var states: map<Key, Row>
    var sent: seq<(Key, Effect, int)>
    ghost var history: map<Key, seq<Reading>>
    ghost var clock: int

    ghost predicate Valid()
      reads this
    {
      AllTrack(rules, states, history, clock)
    }

    constructor (now: int)
      ensures Valid() && rules == map[] && sent == [] && history == map[] && clock == now
    {
      rules, states, sent, history, clock := map[], map[], [], map[], now;
    }

    /** Whatever was done to the book, each row is what its rule's readings since the last
        disable call for. */
    lemma RowsAreHistory(k: Key)
      requires Valid() && k.0 in rules
      ensures Describes(Lookup(states, k), Past(history, k), |Past(history, k)|, Dwell(rules[k.0]))
    {
      var h := Past(history, k);
      assert Tracks(rules, Lookup(states, k), h, clock, k);
      RowDescribesHistory(h, |h|, Dwell(rules[k.0]));
      assert h[..|h|] == h;
    }

    method CreateRule(rule: Rule)
      requires Valid() && rule.id !in rules && (forall k: Key :: k in history ==> k.0 != rule.id)
      modifies this`rules
      ensures Valid() && rules == old(rules)[rule.id := rule]
    {
      ghost var r0 := rules;
      rules := rules[rule.id := rule];
      forall k: Key ensures Tracks(rules, Lookup(states, k), Past(history, k), clock, k) {
        assert Tracks(r0, Lookup(states, k), Past(history, k), clock, k);
      }
    }

    /** One device: its row takes its step, and a fire or resolve is sent. */
    method TakeReading(rule: Rule, d: Device, now: int) returns (effect: Effect)
      modifies this`states, this`sent
      ensures effect == Outcome(old(states), rule, d, now).1
      ensures
        var row := Outcome(old(states), rule, d, now).0;
        states == if row.Some? then old(states)[(rule.id, d.id) := row.value] else old(states)
      ensures sent == old(sent) + Notice(rule, d, effect, now)
    {
      var k := (rule.id, d.id);
      var (row, e) := Step(Lookup(states, k), ReadingOf(rule, d, now), Dwell(rule));
      effect := e;
      if row.Some? {
        states := states[k := row.value];
      }
      if effect != Nothing {
        sent := sent + [(k, effect, now)];
      }
    }

    /** One rule over its team's devices. */
    method TakeReadings(rule: Rule, devices: seq<Device>, now: int) returns (fired: nat)
      modifies this`states, this`sent
      ensures Passed(old(states), old(sent), rule, devices, now, states, sent, fired)
    {
      fired := 0;
      ghost var s0, sent0 := states, sent;
      for i := 0 to |devices|
        invariant Passed(s0, sent0, rule, devices[..i], now, states, sent, fired)
      {
        PassMore(s0, sent0, rule, devices, i, now, states, sent, fired);
        var effect := TakeReading(rule, devices[i], now);
        if effect == Fired {
          fired := fired + 1;
        }
      }
      assert devices[..|devices|] == devices;
    }

    /** One rule's part of a pass keeps every row equal to its history. It may be one that was
        disabled while the pass was under way. */
    method EvaluateRule(rule: Rule, devices: seq<Device>, now: int) returns (fired: nat)
      requires Valid() && rule.id in rules && rules[rule.id] == rule && clock <= now
      modifies this
      ensures Valid() && clock == now && rules == old(rules)
      ensures Passed(old(states), old(sent), rule, devices, now, states, sent, fired)
      ensures history == Recorded(old(history), rule, devices, now)
    {
      TrackPass(rules, states, history, clock, rule, devices, now);
      fired := TakeReadings(rule, devices, now);
      history, clock := Recorded(history, rule, devices, now), now;
    }

    /** The whole pass, rule by rule. */
    method EvaluateAlerts(enabled: seq<Rule>, fleet: seq<seq<Device>>, now: int) returns (fired: nat)
      requires Valid() && clock <= now && |fleet| == |enabled|
      requires forall i :: 0 <= i < |enabled| ==> enabled[i].id in rules && rules[enabled[i].id] == enabled[i]
      modifies this
      ensures Valid() && rules == old(rules)
      ensures Evaluated(old(states), old(sent), old(history), enabled, fleet, now, states, sent, history, fired)
      ensures (forall i :: 0 <= i < |enabled| ==> forall d :: d in fleet[i] ==> Healthy(enabled[i], d)) ==>
        fired == 0 && states.Keys == old(states).Keys
    {
      if forall i :: 0 <= i < |enabled| ==> forall d :: d in fleet[i] ==> Healthy(enabled[i], d) {
        HealthyPass(states, enabled, fleet, now);
      }
      fired := 0;
      ghost var s0, sent0, h0 := states, sent, history;
      for i := 0 to |enabled|
        invariant Valid() && clock <= now && rules == old(rules)
        invariant Evaluated(s0, sent0, h0, enabled[..i], fleet[..i], now, states, sent, history, fired)
      {
        EvaluatedMore(s0, sent0, h0, enabled, fleet, i, now, states, sent, history, fired);
        var n := EvaluateRule(enabled[i], fleet[i], now);
        fired := fired + n;
      }
      assert enabled[..|enabled|] == enabled && fleet[..|enabled|] == fleet;
    }

    /** Disabling a rule forgets its rows and no others. */
    method SetRuleEnabled(ruleId: string, enabled: bool)
      requires Valid()
      modifies this`states, this`history
      ensures Valid()
      ensures states == if enabled then old(states) else Without(old(states), ruleId)
      ensures history == if enabled then old(history) else Without(old(history), ruleId)
    {
      if !enabled {
        TrackWithout(rules, states, history, clock, ruleId);
        states, history := Without(states, ruleId), Without(history, ruleId);
      }
    }
  }
}
