/** Dispatching one command to many devices (src/server/modules/commands/command.service.ts). */
module CommandService {
  import opened Prelude
  import CR = CommandRow
  import RL = RateLimit

  datatype Device = Device(id: string, online: bool, groupId: Option<string>)

  datatype Input = Input(deviceIds: seq<string>, groupId: Option<string>, useBroadcastTopic: bool, timeoutMs: nat)

  datatype Refusal = NoMatchingDevices | AllOffline | UserLimited(retryAfterMs: int) | AllLimited | PublishFailed

  datatype Outcome = Outcome(batchId: string, dispatched: seq<(string, string)>, skipped: seq<string>)

  /** What leaves the process, in order. */
  datatype Effect =
    | InsertRows(commandIds: seq<string>)
    | PublishToDevice(deviceId: string, commandId: string)
    | PublishToGroup(groupId: string, batchId: string)
    | MarkDispatched(batchId: string)

  // ---- Selecting targets ----

  predicate Targeted(d: Device, input: Input) {
    if input.groupId.Some? && input.deviceIds == [] then d.groupId == input.groupId
    else d.id in input.deviceIds
  }

  function Filter(ds: seq<Device>, p: Device -> bool): seq<Device> {
    if ds == [] then [] else
      Filter(ds[..|ds| - 1], p) + if p(ds[|ds| - 1]) then [ds[|ds| - 1]] else []
  }

  function Ids(ds: seq<Device>): seq<string> {
    seq(|ds|, i requires 0 <= i < |ds| => ds[i].id)
  }

  function CommandIds(dispatched: seq<(string, string)>): seq<string> {
    seq(|dispatched|, i requires 0 <= i < |dispatched| => dispatched[i].1)
  }

  function DeviceIds(dispatched: seq<(string, string)>): seq<string> {
    seq(|dispatched|, i requires 0 <= i < |dispatched| => dispatched[i].0)
  }

  /** Dispatched pairs for the final targets. */
  function Pairs(ids: seq<string>, batchId: string, commandIdFor: (string, string) -> string): seq<(string, string)> {
    seq(|ids|, i requires 0 <= i < |ids| => (ids[i], commandIdFor(batchId, ids[i])))
  }

  function Publishes(pairs: seq<(string, string)>): seq<Effect> {
    seq(|pairs|, i requires 0 <= i < |pairs| => PublishToDevice(pairs[i].0, pairs[i].1))
  }

  function Targets(fleet: seq<Device>, input: Input): seq<Device> {
    Filter(fleet, d => Targeted(d, input))
  }

  function Online(ds: seq<Device>): seq<Device> {
    Filter(ds, (d: Device) => d.online)
  }

  function Offline(ds: seq<Device>): seq<Device> {
    Filter(ds, (d: Device) => !d.online)
  }

  /** A filter keeps the elements that pass, in order and as often as they occur. */
  lemma FilterCons(d: Device, rest: seq<Device>, p: Device -> bool)
    ensures Filter([], p) == []
    ensures Filter([d] + rest, p) == (if p(d) then [d] else []) + Filter(rest, p)
    decreases |rest|
  {
    if rest == [] {
      assert [d] + rest == [d] && [d][..0] == [];
    } else {
      var front, last := rest[..|rest| - 1], rest[|rest| - 1];
      assert ([d] + rest)[..|rest|] == [d] + front;
      FilterCons(d, front, p);
    }
  }

  lemma {:induction false} FilterCount(ds: seq<Device>, p: Device -> bool, d: Device)
    ensures d in Filter(ds, p) <==> d in ds && p(d)
    ensures multiset(Filter(ds, p))[d] == if p(d) then multiset(ds)[d] else 0
  {
    if ds != [] {
      var front, last := ds[..|ds| - 1], ds[|ds| - 1];
      assert ds == front + [last];
      FilterCount(front, p, d);
    }
  }

  /** Who is targeted, online and offline, in the devices' own fields: in the fleet's order, and
      each as often as it occurs there. */
  lemma {:induction false} TargetIff(fleet: seq<Device>, input: Input, d: Device)
    ensures d in Targets(fleet, input) <==>
      d in fleet && if input.groupId.Some? && input.deviceIds == [] then d.groupId == input.groupId
                    else d.id in input.deviceIds
    ensures multiset(Targets(fleet, input))[d] == if d in Targets(fleet, input) then multiset(fleet)[d] else 0
    ensures d in Online(Targets(fleet, input)) <==> d in Targets(fleet, input) && d.online
    ensures d in Offline(Targets(fleet, input)) <==> d in Targets(fleet, input) && !d.online
  {
    FilterCount(fleet, d => Targeted(d, input), d);
    FilterCount(Targets(fleet, input), (d: Device) => d.online, d);
    FilterCount(Targets(fleet, input), (d: Device) => !d.online, d);
  }

  lemma {:induction false} TargetsCons(d: Device, rest: seq<Device>, input: Input)
    ensures
      var selected := if input.groupId.Some? && input.deviceIds == [] then d.groupId == input.groupId
                      else d.id in input.deviceIds;
      && Targets([d] + rest, input) == (if selected then [d] else []) + Targets(rest, input)
      && Online([d] + rest) == (if d.online then [d] else []) + Online(rest)
      && Offline([d] + rest) == (if d.online then [] else [d]) + Offline(rest)
    ensures Targets([], input) == Online([]) == Offline([]) == []
  {
    FilterCons(d, rest, d => Targeted(d, input));
    FilterCons(d, rest, (d: Device) => d.online);
    FilterCons(d, rest, (d: Device) => !d.online);
  }

  lemma {:induction false} OnlineOffline(ds: seq<Device>)
    ensures multiset(Ids(ds)) == multiset(Ids(Online(ds))) + multiset(Ids(Offline(ds)))
  {
    if ds == [] {
      assert multiset(Ids([])) == multiset{};
    } else {
      var before, last := ds[..|ds| - 1], ds[|ds| - 1];
      OnlineOffline(before);
      assert Ids(ds) == Ids(before) + [last.id];
      if last.online {
        assert Ids(Online(ds)) == Ids(Online(before)) + [last.id];
        assert Offline(ds) == Offline(before);
      } else {
        assert Ids(Offline(ds)) == Ids(Offline(before)) + [last.id];
        assert Online(ds) == Online(before);
      }
    }
  }

  /** The targets of a dispatch, all at once. */
  lemma Selected(fleet: seq<Device>, input: Input)
    ensures forall d :: d in Targets(fleet, input) <==>
      d in fleet && if input.groupId.Some? && input.deviceIds == [] then d.groupId == input.groupId
                    else d.id in input.deviceIds
    ensures forall d :: d in Online(Targets(fleet, input)) <==> d in Targets(fleet, input) && d.online
    ensures forall d :: d in Offline(Targets(fleet, input)) <==> d in Targets(fleet, input) && !d.online
    ensures forall d :: d in Offline(Targets(fleet, input)) ==> d.id in Ids(Offline(Targets(fleet, input)))
    ensures Targets(fleet, input) == [] <==> forall d :: d in fleet ==> d !in Targets(fleet, input)
    ensures Online(Targets(fleet, input)) == [] <==> forall d :: d in Targets(fleet, input) ==> !d.online
  {
    forall d ensures
      && (d in Targets(fleet, input) <==>
            d in fleet && if input.groupId.Some? && input.deviceIds == [] then d.groupId == input.groupId
                          else d.id in input.deviceIds)
      && (d in Online(Targets(fleet, input)) <==> d in Targets(fleet, input) && d.online)
      && (d in Offline(Targets(fleet, input)) <==> d in Targets(fleet, input) && !d.online)
    {
      TargetIff(fleet, input, d);
    }
    var off := Offline(Targets(fleet, input));
    forall d | d in off ensures d.id in Ids(off) {
      var i :| 0 <= i < |off| && off[i] == d;
      assert Ids(off)[i] == d.id;
    }
    if Targets(fleet, input) != [] {
      assert Targets(fleet, input)[0] in fleet;
    }
    if Online(Targets(fleet, input)) != [] {
      assert Online(Targets(fleet, input))[0] in Targets(fleet, input);
    }
  }

  /** Every dispatched pair names one of the devices that were asked for, and its command. */
  lemma AllowedAmong(ds: seq<Device>, v: RL.Verdict, limited: seq<string>, batchId: string,
                     commandIdFor: (string, string) -> string)
    requires multiset(Ids(ds)) == multiset(v.allowed) + multiset(limited)
    ensures forall p :: p in Pairs(v.allowed, batchId, commandIdFor) ==>
      p.1 == commandIdFor(batchId, p.0) && exists d :: d in ds && d.id == p.0
  {
    var pairs := Pairs(v.allowed, batchId, commandIdFor);
    forall p | p in pairs ensures p.1 == commandIdFor(batchId, p.0) && exists d :: d in ds && d.id == p.0 {
      var i :| 0 <= i < |pairs| && pairs[i] == p;
      assert v.allowed[i] in multiset(Ids(ds));
      assert p.0 in Ids(ds);
      var j :| 0 <= j < |ds| && Ids(ds)[j] == p.0;
      assert ds[j] in ds && ds[j].id == p.0;
    }
  }

  // ---- Who receives a publish ----

  predicate Receives(d: Device, e: Effect) {
    match e
    case PublishToDevice(id, _) => d.id == id
    case PublishToGroup(g, _) => d.groupId == Some(g)
    case _ => false
  }

  predicate Sent(d: Device, effects: seq<Effect>) {
    exists e :: e in effects && Receives(d, e)
  }

  /** What is published: once to the group's topic, or once to each device. */
  function PublishesOf(pairs: seq<(string, string)>, input: Input, batchId: string): seq<Effect> {
    if input.useBroadcastTopic && input.groupId.Some?
    then [PublishToGroup(input.groupId.value, batchId)] else Publishes(pairs)
  }

  /** The effects of an accepted dispatch: rows first, then the publishes, then the update. */
  function Effects(pairs: seq<(string, string)>, input: Input, batchId: string): seq<Effect> {
    [InsertRows(CommandIds(pairs))] + PublishesOf(pairs, input, batchId) + [MarkDispatched(batchId)]
  }

  /** The publish is rejected; `fails` decides by device or group. */
  predicate Rejected(e: Effect, fails: string -> bool) {
    match e
    case PublishToDevice(d, _) => fails(d)
    case PublishToGroup(g, _) => fails(g)
    case _ => false
  }

  /** The publishes that do go out. */
  function Reached(ps: seq<Effect>, fails: string -> bool): seq<Effect> {
    if ps == [] then []
    else Reached(ps[..|ps| - 1], fails) + if Rejected(ps[|ps| - 1], fails) then [] else [ps[|ps| - 1]]
  }

  predicate SomeRejected(ps: seq<Effect>, fails: string -> bool) {
    exists i :: 0 <= i < |ps| && Rejected(ps[i], fails)
  }

  /** Exactly who is sent the command: the dispatched devices, or, with the broadcast topic,
      every member of the group, also one reported as skipped. */
  lemma SentIff(d: Device, pairs: seq<(string, string)>, input: Input, batchId: string)
    ensures Sent(d, Effects(pairs, input, batchId)) <==>
            if input.useBroadcastTopic && input.groupId.Some? then d.groupId == input.groupId
            else d.id in DeviceIds(pairs)
  {
    var effects := Effects(pairs, input, batchId);
    if input.useBroadcastTopic && input.groupId.Some? {
      var publish := PublishToGroup(input.groupId.value, batchId);
      assert effects == [effects[0], publish, MarkDispatched(batchId)];
      assert publish in effects;
      if d.groupId == input.groupId { assert Receives(d, publish); }
    } else {
      var ps := Publishes(pairs);
      assert effects == [effects[0]] + ps + [MarkDispatched(batchId)];
      forall e | e in effects && Receives(d, e) ensures d.id in DeviceIds(pairs) {
        assert e in ps;
        var i :| 0 <= i < |ps| && ps[i] == e;
        assert DeviceIds(pairs)[i] == d.id;
      }
      if d.id in DeviceIds(pairs) {
        var i :| 0 <= i < |pairs| && DeviceIds(pairs)[i] == d.id;
        assert ps[i] in effects && Receives(d, ps[i]);
      }
    }
  }

  /** A device reported as skipped is left alone exactly when it is not reached through the
      group topic. */
  lemma SkippedNotSentIff(d: Device, pairs: seq<(string, string)>, input: Input, batchId: string)
    requires d.id !in DeviceIds(pairs)
    ensures !Sent(d, Effects(pairs, input, batchId)) <==>
            !(input.useBroadcastTopic && input.groupId.Some? && d.groupId == input.groupId)
  {
    SentIff(d, pairs, input, batchId);
  }

  // ---- The service ----

  function WithRows(rows: map<string, CR.Row>, pairs: seq<(string, string)>, timeoutMs: nat,
                    status: CR.RowStatus, at: Option<int>): map<string, CR.Row> {
    if pairs == [] then rows else
      var last := pairs[|pairs| - 1];
      WithRows(rows, pairs[..|pairs| - 1], timeoutMs, status, at)
        [last.1 := CR.Row(last.0, status, at, timeoutMs, None, "", "", "")]
  }

  /** What leaves the process, message by message: the rows of the batch's commands, then one
      publish to the group or one to each device under its own command id, then the update. */
  lemma EffectsAre(pairs: seq<(string, string)>, input: Input, batchId: string)
    ensures
      var es := Effects(pairs, input, batchId);
      var n := if input.useBroadcastTopic && input.groupId.Some? then 1 else |pairs|;
      && |es| == n + 2 && es[n + 1] == MarkDispatched(batchId)
      && es[0].InsertRows? && |es[0].commandIds| == |pairs|
      && (forall i :: 0 <= i < |pairs| ==> es[0].commandIds[i] == pairs[i].1)
      && (input.useBroadcastTopic && input.groupId.Some? ==> es[1] == PublishToGroup(input.groupId.value, batchId))
      && (!(input.useBroadcastTopic && input.groupId.Some?) ==>
            forall i :: 0 <= i < |pairs| ==> es[i + 1] == PublishToDevice(pairs[i].0, pairs[i].1))
  {
  }

  /** The reasons for a refusal, in order: nobody, nobody online, the user's budget, the devices'. */
  lemma RefusedIff(targets: seq<Device>, v: RL.Verdict)
    ensures Refused(targets, v) == Some(NoMatchingDevices) <==> targets == []
    ensures Refused(targets, v) == Some(AllOffline) <==> targets != [] && forall d :: d in targets ==> !d.online
    ensures Refused(targets, v).Some? && Refused(targets, v).value.UserLimited? <==>
      v.userRetryAfterMs > 0 && exists d :: d in targets && d.online
    ensures v.userRetryAfterMs > 0 && (exists d :: d in targets && d.online) ==>
      Refused(targets, v) == Some(UserLimited(v.userRetryAfterMs))
    ensures Refused(targets, v) == Some(AllLimited) <==>
      v.userRetryAfterMs <= 0 && v.allowed == [] && exists d :: d in targets && d.online
  {
    forall d ensures d in Online(targets) <==> d in targets && d.online {
      FilterCount(targets, (x: Device) => x.online, d);
    }
    if Online(targets) != [] {
      assert Online(targets)[0] in Online(targets);
    }
  }

  /** The rows of a batch, and no others: each under its command id, for its device. */
  lemma {:induction false} RowsAre(rows: map<string, CR.Row>, pairs: seq<(string, string)>, timeoutMs: nat,
                                   status: CR.RowStatus, at: Option<int>, id: string)
    requires forall i, j :: 0 <= i < j < |pairs| ==> pairs[i].1 != pairs[j].1
    ensures
      var after := WithRows(rows, pairs, timeoutMs, status, at);
      && (forall d :: (d, id) in pairs ==>
            id in after && after[id] == CR.Row(d, status, at, timeoutMs, None, "", "", ""))
      && ((forall d :: (d, id) !in pairs) ==>
            (id in after <==> id in rows) && (id in rows ==> after[id] == rows[id]))
  {
    if pairs != [] {
      var front, last := pairs[..|pairs| - 1], pairs[|pairs| - 1];
      assert pairs == front + [last];
      RowsAre(rows, front, timeoutMs, status, at, id);
      assert forall d :: (d, id) in pairs <==> (d, id) in front || (d, id) == last;
      assert forall i :: 0 <= i < |front| ==> front[i] == pairs[i] && pairs[i].1 != pairs[|front|].1;
      assert forall p :: p in front ==> p.1 != last.1;
    }
  }

  /** Why a dispatch is refused, in the order the reasons are looked at. */
  function Refused(targets: seq<Device>, v: RL.Verdict): Option<Refusal> {
    if targets == [] then Some(NoMatchingDevices)
    else if Online(targets) == [] then Some(AllOffline)
    else if v.userRetryAfterMs > 0 then Some(UserLimited(v.userRetryAfterMs))
    else if v.allowed == [] then Some(AllLimited)
    else None
  }

  class Service {
    const limiter: RL.Limiter
    var rows: map<string, CR.Row>
    var effects: seq<Effect>

    constructor (limiter: RL.Limiter)
      ensures this.limiter == limiter && rows == map[] && effects == []
    {
      this.limiter := limiter;
      rows, effects := map[], [];
    }

    /** `fleet` is the caller's team. A refusal writes and publishes nothing, for exactly the
        first reason that applies. Otherwise every target is in exactly one of dispatched and
        skipped, every command's row exists before anything is published, and the rows end
        DISPATCHED; but if a publish is rejected, the call fails and they stay PENDING,
        although other devices may have been reached. */
    method DispatchCommand(userId: string, fleet: seq<Device>, input: Input, batchId: string,
                           commandIdFor: (string, string) -> string, now: int, perMinute: nat,
                           fails: string -> bool)
      returns (r: Result<Outcome, Refusal>)
      requires perMinute >= 1
      modifies this, limiter`buckets
      ensures
        var targets := Targets(fleet, input);
        var (buckets, v) := RL.Checked(old(limiter.buckets), userId, Ids(Online(targets)), now, perMinute);
        var pairs := Pairs(v.allowed, batchId, commandIdFor);
        var skipped := Ids(Offline(targets)) + RL.Names(v.limited);
        && limiter.buckets == (if Online(targets) == [] then old(limiter.buckets) else buckets)
        && (Refused(targets, v).Some? ==>
              r == Err(Refused(targets, v).value) && rows == old(rows) && effects == old(effects))
        && (Refused(targets, v).None? ==>
              && DeviceIds(pairs) == v.allowed && multiset(Ids(targets)) == multiset(v.allowed) + multiset(skipped)
              && Concluded(old(rows), old(effects), pairs, input, batchId, now, fails, rows, effects)
              && r == if SomeRejected(PublishesOf(pairs, input, batchId), fails) then Err(PublishFailed)
                      else Ok(Outcome(batchId, pairs, skipped)))
      // in the devices' own fields
      ensures r == Err(NoMatchingDevices) <==> forall d :: d in fleet ==>
        !(if input.groupId.Some? && input.deviceIds == [] then d.groupId == input.groupId else d.id in input.deviceIds)
      ensures r == Err(AllOffline) ==> forall d :: d in fleet && d.online ==>
        !(if input.groupId.Some? && input.deviceIds == [] then d.groupId == input.groupId else d.id in input.deviceIds)
      ensures r.Ok? ==> forall p :: p in r.value.dispatched ==>
        && p.1 == commandIdFor(batchId, p.0)
        && (exists d :: d in fleet && d.id == p.0 && d.online
              && (if input.groupId.Some? && input.deviceIds == [] then d.groupId == input.groupId
                  else d.id in input.deviceIds))
      ensures r.Ok? ==> forall d :: d in fleet && !d.online ==>
        (if input.groupId.Some? && input.deviceIds == [] then d.groupId == input.groupId
         else d.id in input.deviceIds) ==>
          d.id in r.value.skipped
    {
      Selected(fleet, input);
      var targets := Targets(fleet, input);
      if targets == [] {
        return Err(NoMatchingDevices);
      }
      var online := Online(targets);
      var skipped := Ids(Offline(targets));
      OnlineOffline(targets);
      if online == [] {
        return Err(AllOffline);
      }
      var v := Limit(userId, Ids(online), now, perMinute);
      if v.userRetryAfterMs > 0 {
        return Err(UserLimited(v.userRetryAfterMs));
      }
      var pairs, limited := Split(v, batchId, commandIdFor);
      AllowedAmong(online, v, limited, batchId, commandIdFor);
      skipped := skipped + limited;
      if pairs == [] {
        return Err(AllLimited);
      }
      var sent := Send(pairs, input, batchId, now, fails);
      r := if sent then Ok(Outcome(batchId, pairs, skipped)) else Err(PublishFailed);
    }

    method Limit(userId: string, ids: seq<string>, now: int, perMinute: nat) returns (v: RL.Verdict)
      requires perMinute >= 1
      modifies limiter`buckets
      ensures (limiter.buckets, v) == RL.Checked(old(limiter.buckets), userId, ids, now, perMinute)
      ensures v.userRetryAfterMs <= 0 ==> multiset(ids) == multiset(v.allowed) + multiset(RL.Names(v.limited))
    {
      v := limiter.CheckCommandRateLimit(userId, ids, now, perMinute);
    }

    method Send(pairs: seq<(string, string)>, input: Input, batchId: string, now: int, fails: string -> bool)
      returns (sent: bool)
      modifies this
      ensures Concluded(old(rows), old(effects), pairs, input, batchId, now, fails, rows, effects)
      ensures sent <==> !SomeRejected(PublishesOf(pairs, input, batchId), fails)
    {
      ghost var rows0 := rows;
      rows := Insert(pairs, input.timeoutMs);
      effects := effects + [InsertRows(CommandIds(pairs))];
      RowsExist(rows0, pairs, input.timeoutMs, CR.PENDING, None);
      sent := Publish(pairs, input, batchId, fails);
      if sent {
        rows := MarkAll(rows0, rows, pairs, input.timeoutMs, now);
        effects := effects + [MarkDispatched(batchId)];
      }
    }

    /** Nothing is published for a command without its row. */
    method Publish(pairs: seq<(string, string)>, input: Input, batchId: string, fails: string -> bool)
      returns (sent: bool)
      requires forall i :: 0 <= i < |pairs| ==> pairs[i].1 in rows && rows[pairs[i].1].status == CR.PENDING
      modifies this`effects
      ensures effects == old(effects) + Reached(PublishesOf(pairs, input, batchId), fails)
      ensures sent <==> !SomeRejected(PublishesOf(pairs, input, batchId), fails)
    {
      sent := true;
      var ps := PublishesOf(pairs, input, batchId);
      assert effects + [] == effects;
      for i := 0 to |ps|
        invariant effects == old(effects) + Reached(ps[..i], fails)
        invariant sent <==> !SomeRejected(ps[..i], fails)
      {
        ReachedMore(ps, i, fails);
        if Rejected(ps[i], fails) {
          sent := false;
        } else {
          effects := effects + [ps[i]];
        }
      }
      assert ps[..|ps|] == ps;
    }

    /** Allowed devices become dispatched pairs; limited ones are skipped. */
    method Split(v: RL.Verdict, batchId: string, commandIdFor: (string, string) -> string)
      returns (pairs: seq<(string, string)>, limited: seq<string>)
      ensures pairs == Pairs(v.allowed, batchId, commandIdFor) && DeviceIds(pairs) == v.allowed
      ensures limited == RL.Names(v.limited)
    {
      pairs := Pairs(v.allowed, batchId, commandIdFor);
      limited := [];
      for i := 0 to |v.limited|
        invariant limited == RL.Names(v.limited)[..i]
      {
        limited := limited + [v.limited[i].0];
      }
    }

    method Insert(pairs: seq<(string, string)>, timeoutMs: nat) returns (m: map<string, CR.Row>)
      ensures m == WithRows(rows, pairs, timeoutMs, CR.PENDING, None)
    {
      m := rows;
      for i := 0 to |pairs|
        invariant m == WithRows(rows, pairs[..i], timeoutMs, CR.PENDING, None)
      {
        assert pairs[..i + 1][..i] == pairs[..i];
        m := m[pairs[i].1 := CR.Row(pairs[i].0, CR.PENDING, None, timeoutMs, None, "", "", "")];
      }
      assert pairs[..|pairs|] == pairs;
    }

    /** The batch update: every row of the batch is dispatched at `now`. */
    method MarkAll(ghost before: map<string, CR.Row>, pending: map<string, CR.Row>, pairs: seq<(string, string)>,
                   timeoutMs: nat, now: int)
      returns (m: map<string, CR.Row>)
      requires pending == WithRows(before, pairs, timeoutMs, CR.PENDING, None)
      ensures m == WithRows(before, pairs, timeoutMs, CR.DISPATCHED, Some(now))
    {
      MarkLemma(before, pairs, timeoutMs, now);
      m := map id | id in pending ::
        if id in CommandIds(pairs) then CR.Dispatch(pending[id], now) else pending[id];
    }
  }

  /** How a dispatch that was not refused leaves the table and what it sent. */
  predicate Concluded(rows0: map<string, CR.Row>, effects0: seq<Effect>, pairs: seq<(string, string)>, input: Input,
                      batchId: string, now: int, fails: string -> bool, rows: map<string, CR.Row>, effects: seq<Effect>)
  {
    var ps := PublishesOf(pairs, input, batchId);
    if SomeRejected(ps, fails) then
      && rows == WithRows(rows0, pairs, input.timeoutMs, CR.PENDING, None)
      && effects == effects0 + [InsertRows(CommandIds(pairs))] + Reached(ps, fails)
    else
      && rows == WithRows(rows0, pairs, input.timeoutMs, CR.DISPATCHED, Some(now))
      && effects == effects0 + [InsertRows(CommandIds(pairs))] + Reached(ps, fails) + [MarkDispatched(batchId)]
  }

  lemma {:induction false} AllReached(ps: seq<Effect>, fails: string -> bool)
    requires !SomeRejected(ps, fails)
    ensures Reached(ps, fails) == ps
  {
    if ps != [] {
      var front := ps[..|ps| - 1];
      assert forall i :: 0 <= i < |front| ==> front[i] == ps[i];
      AllReached(front, fails);
      assert ps == front + [ps[|ps| - 1]];
    }
  }

  /** So a dispatch whose publishes all go out has exactly the effects that `Effects` lists. */
  lemma ConcludedEffects(rows0: map<string, CR.Row>, effects0: seq<Effect>, pairs: seq<(string, string)>, input: Input,
                         batchId: string, now: int, fails: string -> bool, rows: map<string, CR.Row>,
                         effects: seq<Effect>)
    requires Concluded(rows0, effects0, pairs, input, batchId, now, fails, rows, effects)
    requires !SomeRejected(PublishesOf(pairs, input, batchId), fails)
    ensures effects == effects0 + Effects(pairs, input, batchId)
  {
    AllReached(PublishesOf(pairs, input, batchId), fails);
  }

  lemma ReachedMore(ps: seq<Effect>, i: nat, fails: string -> bool)
    requires i < |ps|
    ensures Reached(ps[..i + 1], fails) == Reached(ps[..i], fails) + if Rejected(ps[i], fails) then [] else [ps[i]]
    ensures SomeRejected(ps[..i + 1], fails) <==> SomeRejected(ps[..i], fails) || Rejected(ps[i], fails)
  {
    assert ps[..i + 1][..i] == ps[..i];
    assert ps[..i + 1][i] == ps[i];
    forall k | 0 <= k < i ensures ps[..i + 1][k] == ps[..i][k] {
    }
  }

  lemma {:induction false} RowsExist(rows: map<string, CR.Row>, pairs: seq<(string, string)>, timeoutMs: nat,
                                     status: CR.RowStatus, at: Option<int>)
    ensures
      var after := WithRows(rows, pairs, timeoutMs, status, at);
      forall i :: 0 <= i < |pairs| ==> pairs[i].1 in after && after[pairs[i].1].status == status
  {
    if pairs != [] {
      var front := pairs[..|pairs| - 1];
      RowsExist(rows, front, timeoutMs, status, at);
      assert forall i :: 0 <= i < |front| ==> front[i] == pairs[i];
    }
  }

  lemma {:induction false} MarkLemma(rows: map<string, CR.Row>, pairs: seq<(string, string)>, timeoutMs: nat, now: int)
    ensures
      var pending := WithRows(rows, pairs, timeoutMs, CR.PENDING, None);
      WithRows(rows, pairs, timeoutMs, CR.DISPATCHED, Some(now)) ==
        map id | id in pending :: if id in CommandIds(pairs) then CR.Dispatch(pending[id], now) else pending[id]
  {
    if pairs != [] {
      var before := pairs[..|pairs| - 1];
      MarkLemma(rows, before, timeoutMs, now);
      assert CommandIds(pairs) == CommandIds(before) + [pairs[|pairs| - 1].1];
    }
  }
}
