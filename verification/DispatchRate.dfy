/** The rate limit over whole runs of dispatches: every call goes through the shared store, with
    any mix of users, devices and repeated targets (checkCommandRateLimit in
    src/server/infrastructure/ratelimit/ratelimit.ts). */
module DispatchRate {
  import opened Prelude
  import opened RateLimit

  // ---- Takes in the order the script performs them ----

  datatype KeyTake = KeyTake(key: Key, now: int)

  function Cap(k: Key, perMinute: nat): real {
    var p := Limits(perMinute);
    if k.UserKey? then p.userCap else p.devCap
  }

  function Rate(k: Key, perMinute: nat): real {
    var p := Limits(perMinute);
    if k.UserKey? then p.userRate else p.devRate
  }

  function Stored(s: Store, k: Key): Option<Bucket> {
    if k in s then Some(s[k]) else None
  }

  function TakeOne(s: Store, t: KeyTake, perMinute: nat): (Bucket, int)
    requires perMinute >= 1
  {
    LimitsSound(perMinute);
    Take(Lookup(s, t.key, t.now), t.now, Cap(t.key, perMinute), Rate(t.key, perMinute))
  }

  function RunTakes(s: Store, takes: seq<KeyTake>, perMinute: nat): Store
    requires perMinute >= 1
    decreases |takes|
  {
    if takes == [] then s
    else RunTakes(s[takes[0].key := TakeOne(s, takes[0], perMinute).0], takes[1..], perMinute)
  }

  /** How many takes on key k are granted. */
  function GrantsOn(s: Store, takes: seq<KeyTake>, k: Key, perMinute: nat): nat
    requires perMinute >= 1
    decreases |takes|
  {
    if takes == [] then 0
    else
      var (b, wait) := TakeOne(s, takes[0], perMinute);
      (if takes[0].key == k && wait == 0 then 1 else 0) + GrantsOn(s[takes[0].key := b], takes[1..], k, perMinute)
  }

  function TimesOn(takes: seq<KeyTake>, k: Key): seq<int> {
    if takes == [] then []
    else (if takes[0].key == k then [takes[0].now] else []) + TimesOn(takes[1..], k)
  }

  /** Keys do not disturb each other: what happens on one is the single-bucket run. */
  lemma {:induction false} GrantsOnAre(s: Store, takes: seq<KeyTake>, k: Key, perMinute: nat)
    requires perMinute >= 1 && Sound(Cap(k, perMinute), Rate(k, perMinute))
    ensures GrantsOn(s, takes, k, perMinute)
      == Grants(Stored(s, k), TimesOn(takes, k), Cap(k, perMinute), Rate(k, perMinute))
    decreases |takes|
  {
    if takes != [] {
      var t := takes[0];
      var (b, wait) := TakeOne(s, t, perMinute);
      GrantsOnAre(s[t.key := b], takes[1..], k, perMinute);
      if t.key == k {
        assert TimesOn(takes, k)[1..] == TimesOn(takes[1..], k);
      } else {
        assert TimesOn(takes, k) == TimesOn(takes[1..], k);
      }
    }
  }

  predicate Within(takes: seq<KeyTake>, from: int, until: int) {
    && (forall i :: 0 <= i < |takes| ==> from <= takes[i].now <= until)
    && (forall i, j :: 0 <= i <= j < |takes| ==> takes[i].now <= takes[j].now)
  }

  lemma WithinTail(takes: seq<KeyTake>, from: int, until: int)
    requires takes != [] && Within(takes, from, until)
    ensures Within(takes[1..], takes[0].now, until)
  {
    var rest := takes[1..];
    assert forall i :: 0 <= i < |rest| ==> rest[i] == takes[i + 1];
  }

  lemma {:induction false} TimesWithin(takes: seq<KeyTake>, k: Key, from: int, until: int)
    requires Within(takes, from, until)
    ensures Monotone(TimesOn(takes, k)) && forall t :: t in TimesOn(takes, k) ==> from <= t <= until
    decreases |takes|
  {
    if takes != [] {
      WithinTail(takes, from, until);
      TimesWithin(takes[1..], k, takes[0].now, until);
      assert forall i :: 0 <= i < |TimesOn(takes[1..], k)| ==> TimesOn(takes[1..], k)[i] in TimesOn(takes[1..], k);
    }
  }

  // ---- Every stored bucket is one a take wrote ----

  ghost predicate AllKept(s: Store, now: int, perMinute: nat)
    requires perMinute >= 1
  {
    LimitsSound(perMinute);
    forall k :: k in s ==> Kept(s[k], Cap(k, perMinute), Rate(k, perMinute)) && s[k].stamp <= now
  }

  lemma {:induction false} TakesKeep(s: Store, takes: seq<KeyTake>, from: int, until: int, perMinute: nat)
    requires perMinute >= 1 && AllKept(s, from, perMinute) && Within(takes, from, until) && from <= until
    ensures AllKept(RunTakes(s, takes, perMinute), until, perMinute)
    decreases |takes|
  {
    if takes != [] {
      LimitsSound(perMinute);
      var t := takes[0];
      WithinTail(takes, from, until);
      TakeKept(Lookup(s, t.key, t.now), t.now, Cap(t.key, perMinute), Rate(t.key, perMinute));
      TakesKeep(s[t.key := TakeOne(s, t, perMinute).0], takes[1..], t.now, until, perMinute);
    }
  }

  /** What a bucket may grant in d milliseconds. */
  function Allowance(cap: real, rate: real, d: nat): real {
    cap + d as real / 1000.0 * rate
  }

  lemma KeyBounded(b: Option<Bucket>, times: seq<int>, from: int, d: nat, cap: real, rate: real, grants: nat,
                   allowance: real)
    requires Sound(cap, rate) && Monotone(times) && (forall t :: t in times ==> from <= t <= from + d)
    requires b.Some? ==> Kept(b.value, cap, rate) && b.value.stamp <= from
    requires grants == Grants(b, times, cap, rate) && allowance == Allowance(cap, rate, d)
    ensures grants as real <= allowance
  {
    RateIsBounded(b, times, from, d, cap, rate);
  }

  lemma TakesBounded(s: Store, takes: seq<KeyTake>, from: int, d: nat, k: Key, perMinute: nat, cap: real, rate: real,
                     allowance: real)
    requires perMinute >= 1 && AllKept(s, from, perMinute) && Within(takes, from, from + d)
    requires cap == Cap(k, perMinute) && rate == Rate(k, perMinute) && allowance == Allowance(cap, rate, d)
    ensures GrantsOn(s, takes, k, perMinute) as real <= allowance
  {
    LimitsSound(perMinute);
    GrantsOnAre(s, takes, k, perMinute);
    TimesWithin(takes, k, from, from + d);
    KeyBounded(Stored(s, k), TimesOn(takes, k), from, d, cap, rate, GrantsOn(s, takes, k, perMinute), allowance);
  }

  lemma {:induction false} TakesAppend(s: Store, a: seq<KeyTake>, b: seq<KeyTake>, k: Key, perMinute: nat)
    requires perMinute >= 1
    ensures RunTakes(s, a + b, perMinute) == RunTakes(RunTakes(s, a, perMinute), b, perMinute)
    ensures GrantsOn(s, a + b, k, perMinute)
            == GrantsOn(s, a, k, perMinute) + GrantsOn(RunTakes(s, a, perMinute), b, k, perMinute)
    decreases |a|
  {
    if a == [] {
      assert a + b == b;
    } else {
      assert (a + b)[1..] == a[1..] + b;
      TakesAppend(s[a[0].key := TakeOne(s, a[0], perMinute).0], a[1..], b, k, perMinute);
    }
  }

  lemma TakesSnoc(s: Store, a: seq<KeyTake>, t: KeyTake, k: Key, perMinute: nat)
    requires perMinute >= 1
    ensures
      var mid := RunTakes(s, a, perMinute);
      var (b, wait) := TakeOne(mid, t, perMinute);
      && RunTakes(s, a + [t], perMinute) == mid[t.key := b]
      && GrantsOn(s, a + [t], k, perMinute) == GrantsOn(s, a, k, perMinute) + if t.key == k && wait == 0 then 1 else 0
  {
    var mid := RunTakes(s, a, perMinute);
    TakesAppend(s, a, [t], k, perMinute);
    assert [t][1..] == [];
    assert GrantsOn(mid[t.key := TakeOne(mid, t, perMinute).0], [], k, perMinute) == 0;
  }

  // ---- One dispatch ----

  datatype Call = Call(user: string, devices: seq<string>, now: int)

  function DeviceTakes(devices: seq<string>, now: int): seq<KeyTake> {
    seq(|devices|, i requires 0 <= i < |devices| => KeyTake(DeviceKey(devices[i]), now))
  }

  function Takes(c: Call): seq<KeyTake> {
    DeviceTakes(c.devices, c.now) + [KeyTake(UserKey(c.user), c.now)]
  }

  function Count(ids: seq<string>, id: string): nat {
    if ids == [] then 0 else Count(ids[..|ids| - 1], id) + if ids[|ids| - 1] == id then 1 else 0
  }

  /** The script's device loop is those takes, and the devices it allows are the granted ones. */
  lemma {:induction false} DevicesAreTakes(s: Store, devices: seq<string>, now: int, perMinute: nat, k: Key)
    requires perMinute >= 1
    ensures Sound(Limits(perMinute).devCap, Limits(perMinute).devRate)
    ensures
      var p := Limits(perMinute);
      var (after, waits) := TakeDevices(s, devices, now, p.devCap, p.devRate);
      && after == RunTakes(s, DeviceTakes(devices, now), perMinute)
      && |waits| == |devices|
      && GrantsOn(s, DeviceTakes(devices, now), k, perMinute)
         == (if k.DeviceKey? then Count(Allowed(devices, waits), k.id) else 0)
  {
    LimitsSound(perMinute);
    var p := Limits(perMinute);
    if devices != [] {
      var front, last := devices[..|devices| - 1], devices[|devices| - 1];
      DevicesAreTakes(s, front, now, perMinute, k);
      assert DeviceTakes(devices, now) == DeviceTakes(front, now) + [KeyTake(DeviceKey(last), now)];
      TakesSnoc(s, DeviceTakes(front, now), KeyTake(DeviceKey(last), now), k, perMinute);
      var (mid, before) := TakeDevices(s, front, now, p.devCap, p.devRate);
      var (b, wait) := Take(Lookup(mid, DeviceKey(last), now), now, p.devCap, p.devRate);
      WaitNotNegative(Lookup(mid, DeviceKey(last), now), now, p.devCap, p.devRate);
      assert (before + [wait])[..|front|] == before;
      CountAllowed(devices, before + [wait], if k.DeviceKey? then k.id else "");
    }
  }

  lemma WaitNotNegative(b: Option<Bucket>, now: int, cap: real, rate: real)
    requires Sound(cap, rate)
    ensures Take(b, now, cap, rate).1 >= 0
  {
    var tokens := Available(b, now, cap, rate);
    if tokens < 1.0 {
      DeniedWaits(tokens, rate);
    }
  }

  lemma CountAllowed(devices: seq<string>, waits: seq<int>, id: string)
    requires |devices| == |waits| > 0
    ensures
      var n := |devices| - 1;
      Count(Allowed(devices, waits), id)
      == Count(Allowed(devices[..n], waits[..n]), id) + if waits[n] <= 0 && devices[n] == id then 1 else 0
  {
    var n := |devices| - 1;
    var front := Allowed(devices[..n], waits[..n]);
    assert (front + [devices[n]])[..|front|] == front;
    assert front + [] == front;
  }

  /** A dispatch is its takes; it passes the user exactly when the user's take is granted, and
      a device no more often than that device's takes are. */
  lemma CallIsTakes(s: Store, c: Call, perMinute: nat, device: string)
    requires perMinute >= 1
    ensures
      var (after, v) := Checked(s, c.user, c.devices, c.now, perMinute);
      && after == RunTakes(s, Takes(c), perMinute)
      && GrantsOn(s, Takes(c), UserKey(c.user), perMinute) == (if v.userRetryAfterMs <= 0 then 1 else 0)
      && (forall u :: u != c.user ==> GrantsOn(s, Takes(c), UserKey(u), perMinute) == 0)
      && Count(v.allowed, device) <= GrantsOn(s, Takes(c), DeviceKey(device), perMinute)
  {
    LimitsSound(perMinute);
    var p := Limits(perMinute);
    var ds, t := DeviceTakes(c.devices, c.now), KeyTake(UserKey(c.user), c.now);
    DevicesAreTakes(s, c.devices, c.now, perMinute, DeviceKey(device));
    TakesSnoc(s, ds, t, DeviceKey(device), perMinute);
    DevicesLeaveUser(s, c.devices, c.now, p.devCap, p.devRate, c.user);
    WaitNotNegative(Lookup(s, UserKey(c.user), c.now), c.now, p.userCap, p.userRate);
    forall u ensures GrantsOn(s, Takes(c), UserKey(u), perMinute)
                     == if u == c.user && TakeOne(RunTakes(s, ds, perMinute), t, perMinute).1 == 0 then 1 else 0
    {
      DevicesAreTakes(s, c.devices, c.now, perMinute, UserKey(u));
      TakesSnoc(s, ds, t, UserKey(u), perMinute);
    }
  }

  // ---- Runs of dispatches ----

  function RunCalls(s: Store, calls: seq<Call>, perMinute: nat): Store
    requires perMinute >= 1
    decreases |calls|
  {
    if calls == [] then s
    else RunCalls(Checked(s, calls[0].user, calls[0].devices, calls[0].now, perMinute).0, calls[1..], perMinute)
  }

  /** The dispatches of one user that the user's budget let pass. */
  function UserPassed(s: Store, calls: seq<Call>, user: string, perMinute: nat): nat
    requires perMinute >= 1
    decreases |calls|
  {
    if calls == [] then 0
    else
      var c := calls[0];
      var (after, v) := Checked(s, c.user, c.devices, c.now, perMinute);
      (if c.user == user && v.userRetryAfterMs <= 0 then 1 else 0) + UserPassed(after, calls[1..], user, perMinute)
  }

  /** The commands let through to one device, by whomever they were sent. */
  function DevicePassed(s: Store, calls: seq<Call>, device: string, perMinute: nat): nat
    requires perMinute >= 1
    decreases |calls|
  {
    if calls == [] then 0
    else
      var c := calls[0];
      var (after, v) := Checked(s, c.user, c.devices, c.now, perMinute);
      Count(v.allowed, device) + DevicePassed(after, calls[1..], device, perMinute)
  }

  function AllTakes(calls: seq<Call>): seq<KeyTake> {
    if calls == [] then [] else Takes(calls[0]) + AllTakes(calls[1..])
  }

  lemma {:induction false} CallsAreTakes(s: Store, calls: seq<Call>, user: string, device: string, perMinute: nat)
    requires perMinute >= 1
    ensures RunCalls(s, calls, perMinute) == RunTakes(s, AllTakes(calls), perMinute)
    ensures UserPassed(s, calls, user, perMinute) == GrantsOn(s, AllTakes(calls), UserKey(user), perMinute)
    ensures DevicePassed(s, calls, device, perMinute) <= GrantsOn(s, AllTakes(calls), DeviceKey(device), perMinute)
    decreases |calls|
  {
    if calls != [] {
      CallIsTakes(s, calls[0], perMinute, device);
      TakesAppend(s, Takes(calls[0]), AllTakes(calls[1..]), UserKey(user), perMinute);
      TakesAppend(s, Takes(calls[0]), AllTakes(calls[1..]), DeviceKey(device), perMinute);
      CallsAreTakes(RunTakes(s, Takes(calls[0]), perMinute), calls[1..], user, device, perMinute);
    }
  }

  predicate CallsWithin(calls: seq<Call>, from: int, until: int) {
    && (forall i :: 0 <= i < |calls| ==> from <= calls[i].now <= until)
    && (forall i, j :: 0 <= i <= j < |calls| ==> calls[i].now <= calls[j].now)
  }

  lemma {:induction false} AllTakesWithin(calls: seq<Call>, from: int, until: int)
    requires CallsWithin(calls, from, until)
    ensures Within(AllTakes(calls), from, until)
    decreases |calls|
  {
    if calls != [] {
      var rest := calls[1..];
      assert forall i :: 0 <= i < |rest| ==> rest[i] == calls[i + 1];
      AllTakesWithin(rest, calls[0].now, until);
      assert forall i :: 0 <= i < |Takes(calls[0])| ==> Takes(calls[0])[i].now == calls[0].now;
    }
  }

  /** The limit as users meet it. After any earlier dispatches on an initially empty store, in
      any interval of d milliseconds a user's dispatches pass at most cap + rate * d / 1000
      times, and so do the commands to a device, whoever sends them, however many devices each
      dispatch targets and whichever keys expire in between. */
  lemma DispatchesBounded(earlier: seq<Call>, calls: seq<Call>, start: int, from: int, d: nat,
                          user: string, device: string, perMinute: nat)
    requires perMinute >= 1 && start <= from
    requires CallsWithin(earlier, start, from) && CallsWithin(calls, from, from + d)
    ensures
      var s := RunCalls(map[], earlier, perMinute);
      var p := Limits(perMinute);
      && UserPassed(s, calls, user, perMinute) as real <= Allowance(p.userCap, p.userRate, d)
      && DevicePassed(s, calls, device, perMinute) as real <= Allowance(p.devCap, p.devRate, d)
  {
    var p := Limits(perMinute);
    CallsBounded(earlier, calls, start, from, d, user, device, perMinute,
                 Allowance(p.userCap, p.userRate, d), Allowance(p.devCap, p.devRate, d));
  }

  lemma CallsBounded(earlier: seq<Call>, calls: seq<Call>, start: int, from: int, d: nat,
                     user: string, device: string, perMinute: nat, forUser: real, forDevice: real)
    requires perMinute >= 1 && start <= from
    requires CallsWithin(earlier, start, from) && CallsWithin(calls, from, from + d)
    requires forUser == Allowance(Cap(UserKey(user), perMinute), Rate(UserKey(user), perMinute), d)
    requires forDevice == Allowance(Cap(DeviceKey(device), perMinute), Rate(DeviceKey(device), perMinute), d)
    ensures
      var s := RunCalls(map[], earlier, perMinute);
      && UserPassed(s, calls, user, perMinute) as real <= forUser
      && DevicePassed(s, calls, device, perMinute) as real <= forDevice
  {
    var s := RunCalls(map[], earlier, perMinute);
    AllTakesWithin(earlier, start, from);
    CallsAreTakes(map[], earlier, user, device, perMinute);
    TakesKeep(map[], AllTakes(earlier), start, from, perMinute);
    AllTakesWithin(calls, from, from + d);
    CallsAreTakes(s, calls, user, device, perMinute);
    TakesBounded(s, AllTakes(calls), from, d, UserKey(user), perMinute,
                 Cap(UserKey(user), perMinute), Rate(UserKey(user), perMinute), forUser);
    TakesBounded(s, AllTakes(calls), from, d, DeviceKey(device), perMinute,
                 Cap(DeviceKey(device), perMinute), Rate(DeviceKey(device), perMinute), forDevice);
  }
}
