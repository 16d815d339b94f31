/** Rate limiting in Redis (src/server/infrastructure/ratelimit/ratelimit.ts): a token
    bucket per user and per device, and fixed-window counters. Times are whole
    milliseconds of one monotone clock; token amounts are reals. */
module RateLimit {
  import opened Prelude

  // ---- Rounding up ----

  function Ceil(x: real): int {
    -((-x).Floor)
  }

  /** The least whole number not below x. */
  lemma CeilIsLeast(x: real, k: int)
    ensures k >= Ceil(x) <==> k as real >= x
  {
    var f := (-x).Floor;
    assert f as real <= -x < f as real + 1.0;
    if k >= -f {
      assert k as real >= (-f) as real;
    } else {
      assert k + 1 <= -f;
      assert (k + 1) as real <= (-f) as real;
    }
  }

  // ---- One bucket ----

  /** A stored bucket: tokens as of `stamp`; Redis drops the key at `expireAt`. */
  datatype Bucket = Bucket(tokens: real, stamp: int, expireAt: int)

  predicate Sound(cap: real, rate: real) {
    cap >= 1.0 && rate > 0.0
  }

  function Min(a: real, b: real): real {
    if a <= b then a else b
  }

  function Ttl(cap: real, rate: real): int
    requires Sound(cap, rate)
  {
    Ceil(cap / rate * 1000.0)
  }

  function Refill(from: int, to: int, rate: real): real {
    (to - from) as real / 1000.0 * rate
  }

  /** Tokens the script sees at `now`; a missing key counts as full. */
  function Available(b: Option<Bucket>, now: int, cap: real, rate: real): real {
    match b
    case None => cap
    case Some(k) => Min(cap, k.tokens + Refill(k.stamp, now, rate))
  }

  /** The script's `take`: the bucket it writes, and 0 or the wait in milliseconds. */
  function Take(b: Option<Bucket>, now: int, cap: real, rate: real): (Bucket, int)
    requires Sound(cap, rate)
  {
    var tokens := Available(b, now, cap, rate);
    var expireAt := now + Ttl(cap, rate);
    if tokens < 1.0 then (Bucket(tokens, now, expireAt), Ceil((1.0 - tokens) / rate * 1000.0))
    else (Bucket(tokens - 1.0, now, expireAt), 0)
  }

  /** What Redis returns for a key at `now`. */
  function Live(b: Option<Bucket>, now: int): Option<Bucket> {
    if b.Some? && now < b.value.expireAt then b else None
  }

  ghost predicate Kept(b: Bucket, cap: real, rate: real)
    requires Sound(cap, rate)
  {
    0.0 <= b.tokens <= cap && b.expireAt == b.stamp + Ttl(cap, rate)
  }

  lemma RefillMonotone(a: int, b: int, c: int, rate: real)
    requires a <= b <= c && rate > 0.0
    ensures Refill(a, c, rate) == Refill(a, b, rate) + Refill(b, c, rate)
    ensures Refill(a, b, rate) >= 0.0
  {
  }

  lemma TakeKept(b: Option<Bucket>, now: int, cap: real, rate: real)
    requires Sound(cap, rate)
    requires b.Some? ==> Kept(b.value, cap, rate) && b.value.stamp <= now
    ensures Kept(Take(b, now, cap, rate).0, cap, rate)
    ensures 0.0 <= Available(b, now, cap, rate) <= cap
  {
    if b.Some? { RefillMonotone(b.value.stamp, now, now, rate); }
  }

  lemma RefillReaches(d: int, amount: real, rate: real)
    requires rate > 0.0
    ensures d >= Ceil(amount / rate * 1000.0) <==> d as real / 1000.0 * rate >= amount
  {
    CeilIsLeast(amount / rate * 1000.0, d);
    var x := amount / rate;
    assert x * rate == amount;
    var y := d as real / 1000.0;
    assert d as real >= x * 1000.0 <==> y >= x;
    if y >= x {
      assert (y - x) * rate >= 0.0;
      assert y * rate == x * rate + (y - x) * rate;
    } else {
      assert (x - y) * rate > 0.0;
      assert x * rate == y * rate + (x - y) * rate;
    }
  }

  /** Expiry is invisible: once Redis may drop a bucket it is full again, so a missing key
      and the forgotten bucket answer alike. */
  lemma ExpiryTransparent(b: Bucket, now: int, cap: real, rate: real)
    requires Sound(cap, rate) && Kept(b, cap, rate) && now >= b.expireAt
    ensures Available(Some(b), now, cap, rate) == cap
    ensures Take(None, now, cap, rate) == Take(Some(b), now, cap, rate)
  {
    RefillReaches(now - b.stamp, cap, rate);
  }

  lemma LiveTransparent(b: Bucket, now: int, cap: real, rate: real)
    requires Sound(cap, rate) && Kept(b, cap, rate)
    ensures Available(Live(Some(b), now), now, cap, rate) == Available(Some(b), now, cap, rate)
    ensures Take(Live(Some(b), now), now, cap, rate) == Take(Some(b), now, cap, rate)
  {
    if now >= b.expireAt { ExpiryTransparent(b, now, cap, rate); }
  }

  /** The wait is exact: left alone, the bucket grants a retry k whole milliseconds later
      if and only if k is at least the wait that was returned. */
  lemma WaitIsLeast(b: Option<Bucket>, now: int, cap: real, rate: real, k: nat)
    requires Sound(cap, rate)
    requires b.Some? ==> Kept(b.value, cap, rate) && b.value.stamp <= now
    requires Take(b, now, cap, rate).1 > 0
    ensures
      var (denied, wait) := Take(b, now, cap, rate);
      Take(Live(Some(denied), now + k), now + k, cap, rate).1 == 0 <==> k >= wait
  {
    var (denied, wait) := Take(b, now, cap, rate);
    TakeKept(b, now, cap, rate);
    LiveTransparent(denied, now + k, cap, rate);
    RefillReaches(k, 1.0 - denied.tokens, rate);
    RetryAvailable(denied, now, k, cap, rate);
  }

  lemma RetryAvailable(denied: Bucket, now: int, k: nat, cap: real, rate: real)
    requires Sound(cap, rate) && denied.stamp == now && denied.tokens < 1.0
    ensures Take(Some(denied), now + k, cap, rate).1 == 0 <==> denied.tokens + k as real / 1000.0 * rate >= 1.0
  {
    var tokens := Available(Some(denied), now + k, cap, rate);
    assert Refill(now, now + k, rate) == k as real / 1000.0 * rate;
    if tokens < 1.0 {
      DeniedWaits(tokens, rate);
    }
  }

  lemma DeniedWaits(tokens: real, rate: real)
    requires tokens < 1.0 && rate > 0.0
    ensures Ceil((1.0 - tokens) / rate * 1000.0) > 0
  {
    RefillReaches(0, 1.0 - tokens, rate);
  }

  // ---- Any run of requests ----

  predicate Monotone(times: seq<int>) {
    forall i, j :: 0 <= i <= j < |times| ==> times[i] <= times[j]
  }

  lemma TailMonotone(times: seq<int>)
    requires times != [] && Monotone(times)
    ensures Monotone(times[1..]) && forall t :: t in times[1..] ==> t in times
  {
    var rest := times[1..];
    assert forall i :: 0 <= i < |rest| ==> rest[i] == times[i + 1];
  }

  /** Grants among requests at the given times, with Redis expiring idle keys. */
  function Grants(b: Option<Bucket>, times: seq<int>, cap: real, rate: real): nat
    requires Sound(cap, rate)
    decreases |times|
  {
    if times == [] then 0 else
      var (next, wait) := Take(Live(b, times[0]), times[0], cap, rate);
      (if wait == 0 then 1 else 0) + Grants(Some(next), times[1..], cap, rate)
  }

  function Granted(b: Option<Bucket>, t: int, cap: real, rate: real): nat
    requires Sound(cap, rate)
  {
    if Take(b, t, cap, rate).1 == 0 then 1 else 0
  }

  /** A grant costs one token, so what is available later is at most what is left plus the
      refill in between. */
  lemma SpendThenRefill(b: Option<Bucket>, t: int, later: int, until: int, cap: real, rate: real)
    requires Sound(cap, rate) && t <= later <= until
    requires b.Some? ==> Kept(b.value, cap, rate) && b.value.stamp <= t
    ensures Kept(Take(b, t, cap, rate).0, cap, rate)
    ensures Granted(b, t, cap, rate) as real <= Available(b, t, cap, rate)
    ensures
      var next := Take(b, t, cap, rate).0;
      Granted(b, t, cap, rate) as real + Available(Live(Some(next), later), later, cap, rate)
      + Refill(later, until, rate)
      <= Available(b, t, cap, rate) + Refill(t, until, rate)
  {
    var available := Available(b, t, cap, rate);
    TakeKept(b, t, cap, rate);
    if available < 1.0 { DeniedWaits(available, rate); }
    var next := Take(b, t, cap, rate).0;
    LiveTransparent(next, later, cap, rate);
    RefillMonotone(t, later, until, rate);
  }

  lemma {:induction false} GrantsBounded(b: Option<Bucket>, times: seq<int>, until: int, cap: real, rate: real)
    requires Sound(cap, rate) && times != [] && Monotone(times) && times[|times| - 1] <= until
    requires b.Some? ==> Kept(b.value, cap, rate) && b.value.stamp <= times[0]
    ensures Grants(b, times, cap, rate) as real
            <= Available(Live(b, times[0]), times[0], cap, rate) + Refill(times[0], until, rate)
    decreases |times|
  {
    var t, rest := times[0], times[1..];
    var live := Live(b, t);
    if rest == [] {
      SpendThenRefill(live, t, t, until, cap, rate);
      RefillMonotone(t, t, until, rate);
      RefillMonotone(t, until, until, rate);
      assert Grants(b, times, cap, rate) == Granted(live, t, cap, rate);
    } else {
      assert rest[0] == times[1] && rest[|rest| - 1] == times[|times| - 1];
      TailMonotone(times);
      SpendThenRefill(live, t, rest[0], until, cap, rate);
      GrantsBounded(Some(Take(live, t, cap, rate).0), rest, until, cap, rate);
    }
  }

  /** In any interval of d milliseconds, from any state a run may reach, at most
      cap + rate * d / 1000 requests are granted, although idle keys expire. */
  lemma RateIsBounded(b: Option<Bucket>, times: seq<int>, from: int, d: nat, cap: real, rate: real)
    requires Sound(cap, rate) && Monotone(times)
    requires forall t :: t in times ==> from <= t <= from + d
    requires b.Some? ==> Kept(b.value, cap, rate) && b.value.stamp <= from
    ensures Grants(b, times, cap, rate) as real <= cap + d as real / 1000.0 * rate
  {
    RefillMonotone(from, from, from + d, rate);
    assert Refill(from, from + d, rate) == d as real / 1000.0 * rate;
    if times != [] {
      assert times[0] in times && times[|times| - 1] in times;
      GrantsBounded(b, times, from + d, cap, rate);
      TakeKept(Live(b, times[0]), times[0], cap, rate);
      RefillMonotone(from, times[0], from + d, rate);
    }
  }

  // ---- The script over several keys ----

  datatype Key = UserKey(id: string) | DeviceKey(id: string)

  type Store = map<Key, Bucket>

  function Lookup(s: Store, k: Key, now: int): Option<Bucket> {
    Live(if k in s then Some(s[k]) else None, now)
  }

  /** Device keys in order; the user's key comes last. */
  function TakeDevices(s: Store, devices: seq<string>, now: int, cap: real, rate: real): (Store, seq<int>)
    requires Sound(cap, rate)
  {
    if devices == [] then (s, []) else
      var (s', waits) := TakeDevices(s, devices[..|devices| - 1], now, cap, rate);
      var k := DeviceKey(devices[|devices| - 1]);
      var (b, w) := Take(Lookup(s', k, now), now, cap, rate);
      (s'[k := b], waits + [w])
  }

  datatype Params = Params(userCap: real, userRate: real, devCap: real, devRate: real)

  function Limits(perMinute: nat): Params {
    var p := perMinute as real;
    var third := Ceil(p / 3.0);
    Params(p, p / 60.0, if third > 2 then third as real else 2.0, if p / 60.0 / 3.0 > 0.2 then p / 60.0 / 3.0 else 0.2)
  }

  lemma LimitsSound(perMinute: nat)
    requires perMinute >= 1
    ensures var p := Limits(perMinute); Sound(p.userCap, p.userRate) && Sound(p.devCap, p.devRate)
  {
  }

  datatype Verdict = Verdict(allowed: seq<string>, limited: seq<(string, int)>, userRetryAfterMs: int)

  function Allowed(devices: seq<string>, waits: seq<int>): seq<string>
    requires |devices| == |waits|
  {
    if devices == [] then [] else
      Allowed(devices[..|devices| - 1], waits[..|waits| - 1])
      + if waits[|waits| - 1] > 0 then [] else [devices[|devices| - 1]]
  }

  function Limited(devices: seq<string>, waits: seq<int>): seq<(string, int)>
    requires |devices| == |waits|
  {
    if devices == [] then [] else
      Limited(devices[..|devices| - 1], waits[..|waits| - 1])
      + if waits[|waits| - 1] > 0 then [(devices[|devices| - 1], waits[|waits| - 1])] else []
  }

  function Names(limited: seq<(string, int)>): seq<string> {
    seq(|limited|, i requires 0 <= i < |limited| => limited[i].0)
  }

  lemma NamesAppend(limited: seq<(string, int)>, e: (string, int))
    ensures multiset(Names(limited + [e])) == multiset(Names(limited)) + multiset{e.0}
  {
    assert Names(limited + [e]) == Names(limited) + [e.0];
  }

  /** Each device is in exactly one list, allowed or limited. */
  lemma {:induction false} Partition(devices: seq<string>, waits: seq<int>)
    requires |devices| == |waits|
    ensures multiset(devices) == multiset(Allowed(devices, waits)) + multiset(Names(Limited(devices, waits)))
    ensures forall p :: p in Limited(devices, waits) ==> p.1 > 0
  {
    if devices == [] {
      assert multiset(Names([])) == multiset{};
    } else {
      var ds, d := devices[..|devices| - 1], devices[|devices| - 1];
      var ws, w := waits[..|waits| - 1], waits[|waits| - 1];
      Partition(ds, ws);
      RemoveAtMultiset(devices, |devices| - 1);
      assert RemoveAt(devices, |devices| - 1) == ds;
      if w > 0 {
        NamesAppend(Limited(ds, ws), (d, w));
        assert Allowed(devices, waits) == Allowed(ds, ws);
      } else {
        assert Limited(devices, waits) == Limited(ds, ws);
        assert multiset(Allowed(devices, waits)) == multiset(Allowed(ds, ws)) + multiset{d};
      }
    }
  }

  /** It is limited, with its own wait, exactly if it must wait. */
  lemma {:induction false} LimitedIff(devices: seq<string>, waits: seq<int>, i: nat)
    requires i < |devices| == |waits|
    ensures waits[i] > 0 ==> (devices[i], waits[i]) in Limited(devices, waits)
    ensures waits[i] <= 0 ==> devices[i] in Allowed(devices, waits)
  {
    if i < |devices| - 1 {
      LimitedIff(devices[..|devices| - 1], waits[..|waits| - 1], i);
    }
  }

  lemma {:induction false} DevicesLeaveUser(s: Store, devices: seq<string>, now: int, cap: real, rate: real,
                                            user: string)
    requires Sound(cap, rate)
    ensures
      var r := TakeDevices(s, devices, now, cap, rate);
      && |r.1| == |devices|
      && (UserKey(user) in r.0 <==> UserKey(user) in s)
      && (UserKey(user) in s ==> r.0[UserKey(user)] == s[UserKey(user)])
  {
    if devices != [] {
      DevicesLeaveUser(s, devices[..|devices| - 1], now, cap, rate, user);
    }
  }

  /** The limits in numbers: a user has perMinute tokens that fill up in a minute; a device has the
      least whole number from a third of that, but at least two, refilled at a third of the rate,
      but at least one token in five seconds. */
  lemma LimitsAre(perMinute: nat) returns (k: nat)
    ensures
      var p, n := Limits(perMinute), perMinute as real;
      && p.userCap == n && p.userRate * 60.0 == n
      && p.devCap == k as real && k >= 2 && 3.0 * (k as real) >= n && (k == 2 || 3.0 * ((k - 1) as real) < n)
      && p.devRate >= 0.2 && p.devRate * 180.0 >= n && (p.devRate == 0.2 || p.devRate * 180.0 == n)
  {
    var n := perMinute as real;
    var third := Ceil(n / 3.0);
    CeilBounds(n / 3.0);
    k := if third > 2 then third else 2;
    assert Limits(perMinute).devCap == k as real && 3.0 * (k as real) >= n;
    assert k == 2 || 3.0 * ((k - 1) as real) < n;
  }

  lemma CeilBounds(x: real)
    ensures (Ceil(x) - 1) as real < x <= Ceil(x) as real
  {
  }

  /** One dispatch: a take from each device's bucket and one from the user's. */
  function Checked(buckets: Store, userId: string, deviceIds: seq<string>, now: int, perMinute: nat): (Store, Verdict)
    requires perMinute >= 1
  {
    LimitsSound(perMinute);
    var p := Limits(perMinute);
    DevicesLeaveUser(buckets, deviceIds, now, p.devCap, p.devRate, userId);
    var (user, wait) := Take(Lookup(buckets, UserKey(userId), now), now, p.userCap, p.userRate);
    var (devs, waits) := TakeDevices(buckets, deviceIds, now, p.devCap, p.devRate);
    (devs[UserKey(userId) := user],
     Verdict(if wait > 0 then [] else Allowed(deviceIds, waits), Limited(deviceIds, waits), wait))
  }

  /** The verdict: a user who must wait gets nothing through; else exactly the devices that need not
      wait are let through, in order, and the others named with their waits. */
  lemma VerdictMeans(buckets: Store, userId: string, deviceIds: seq<string>, now: int, perMinute: nat)
    requires perMinute >= 1
    ensures Sound(Limits(perMinute).userCap, Limits(perMinute).userRate)
    ensures Sound(Limits(perMinute).devCap, Limits(perMinute).devRate)
    ensures
      var p := Limits(perMinute);
      var v := Checked(buckets, userId, deviceIds, now, perMinute).1;
      var waits := TakeDevices(buckets, deviceIds, now, p.devCap, p.devRate).1;
      var user := if UserKey(userId) in buckets && now < buckets[UserKey(userId)].expireAt
                  then Some(buckets[UserKey(userId)]) else None;
      && v.userRetryAfterMs == Take(user, now, p.userCap, p.userRate).1
      && |waits| == |deviceIds|
      && (v.userRetryAfterMs > 0 ==> v.allowed == [])
      && (v.userRetryAfterMs <= 0 ==> |v.allowed| + |v.limited| == |deviceIds|)
      && forall i :: 0 <= i < |deviceIds| ==>
           (if waits[i] > 0 then (deviceIds[i], waits[i]) in v.limited
            else v.userRetryAfterMs > 0 || deviceIds[i] in v.allowed)
  {
    LimitsSound(perMinute);
    var p := Limits(perMinute);
    DevicesLeaveUser(buckets, deviceIds, now, p.devCap, p.devRate, userId);
    var waits := TakeDevices(buckets, deviceIds, now, p.devCap, p.devRate).1;
    LengthsAdd(deviceIds, waits);
    forall i | 0 <= i < |deviceIds|
      ensures if waits[i] > 0 then (deviceIds[i], waits[i]) in Limited(deviceIds, waits)
              else deviceIds[i] in Allowed(deviceIds, waits)
    {
      LimitedIff(deviceIds, waits, i);
    }
  }

  lemma {:induction false} LengthsAdd(devices: seq<string>, waits: seq<int>)
    requires |devices| == |waits|
    ensures |Allowed(devices, waits)| + |Limited(devices, waits)| == |devices|
  {
    if devices != [] {
      LengthsAdd(devices[..|devices| - 1], waits[..|waits| - 1]);
    }
  }

  class Limiter {
    var buckets: Store
    var counters: map<string, Counter>

    constructor ()
      ensures buckets == map[] && counters == map[]
    {
      buckets, counters := map[], map[];
    }

    /** One dispatch to any number of devices costs the user exactly one take, whatever the
        comment in the source says about one token per target; each device pays its own. */
    method CheckCommandRateLimit(userId: string, deviceIds: seq<string>, now: int, perMinute: nat) returns (v: Verdict)
      requires perMinute >= 1
      modifies this`buckets
      ensures (buckets, v) == Checked(old(buckets), userId, deviceIds, now, perMinute)
      ensures v.userRetryAfterMs <= 0 ==> multiset(deviceIds) == multiset(v.allowed) + multiset(Names(v.limited))
    {
      LimitsSound(perMinute);
      var p := Limits(perMinute);
      ghost var s0 := buckets;
      var waits: seq<int> := [];
      var i := 0;
      while i < |deviceIds|
        invariant 0 <= i <= |deviceIds| && |waits| == i
        invariant (buckets, waits) == TakeDevices(s0, deviceIds[..i], now, p.devCap, p.devRate)
      {
        assert deviceIds[..i + 1][..i] == deviceIds[..i];
        var k := DeviceKey(deviceIds[i]);
        var (b, w) := Take(Lookup(buckets, k, now), now, p.devCap, p.devRate);
        buckets := buckets[k := b];
        waits := waits + [w];
        i := i + 1;
      }
      assert deviceIds[..i] == deviceIds;
      DevicesLeaveUser(s0, deviceIds, now, p.devCap, p.devRate, userId);
      var (user, wait) := Take(Lookup(buckets, UserKey(userId), now), now, p.userCap, p.userRate);
      buckets := buckets[UserKey(userId) := user];

      var allowed: seq<string> := [];
      var limited: seq<(string, int)> := [];
      var j := 0;
      while j < |deviceIds|
        invariant 0 <= j <= |deviceIds|
        invariant allowed == Allowed(deviceIds[..j], waits[..j]) && limited == Limited(deviceIds[..j], waits[..j])
      {
        assert deviceIds[..j + 1][..j] == deviceIds[..j] && waits[..j + 1][..j] == waits[..j];
        if waits[j] > 0 {
          limited := limited + [(deviceIds[j], waits[j])];
        } else {
          allowed := allowed + [deviceIds[j]];
        }
        j := j + 1;
      }
      assert waits[..j] == waits;
      Partition(deviceIds, waits);
      v := Verdict(if wait > 0 then [] else allowed, limited, wait);
    }

    /** `consumeRateLimit`; when Redis cannot be reached it fails closed. */
    method Consume(key: string, limit: int, windowMs: nat, now: int, available: bool) returns (wait: int)
      requires windowMs >= 1
      modifies this`counters
      ensures !available ==> counters == old(counters) && wait == windowMs
      ensures available ==>
        var (c, w) := Charge(Current(old(counters), key, now), now, limit, windowMs);
        counters == old(counters)[key := c] && wait == w
    {
      if !available {
        return windowMs;
      }
      var c, w := Window(Current(counters, key, now), now, limit, windowMs);
      counters := counters[key := c];
      wait := w;
    }

    /** The window script, statement by statement: INCR, PEXPIRE on the first hit, PTTL. */
    method Window(window: Option<Counter>, now: int, limit: int, windowMs: nat) returns (c: Counter, wait: int)
      requires windowMs >= 1 && (window.Some? ==> now < window.value.expireAt)
      ensures (c, wait) == Charge(window, now, limit, windowMs)
    {
      var current := if window.Some? then window.value.count + 1 else 1;
      var expireAt := if window.Some? then window.value.expireAt else now + windowMs;
      c := Counter(current, expireAt);
      if current > limit {
        wait := expireAt - now;
        return;
      }
      wait := 0;
    }

    method IsRateLimited(key: string, limit: int, now: int, available: bool) returns (blocked: bool)
      ensures blocked <==> !available || Blocked(Current(counters, key, now), limit)
    {
      if !available {
        return true;
      }
      var c := Current(counters, key, now);
      blocked := c.Some? && c.value.count >= limit;
    }

    method Reset(key: string)
      modifies this`counters
      ensures counters == old(counters) - {key}
    {
      counters := counters - {key};
    }
  }

  /** Neither the user's bucket after a dispatch nor the user's wait depends on how many
      devices it targets. */
  lemma UserCostIndependentOfTargets(s: Store, user: string, ds: seq<string>, es: seq<string>, now: int, perMinute: nat)
    requires perMinute >= 1
    ensures
      var (a, v) := Checked(s, user, ds, now, perMinute);
      var (b, w) := Checked(s, user, es, now, perMinute);
      && UserKey(user) in a && UserKey(user) in b && a[UserKey(user)] == b[UserKey(user)]
      && v.userRetryAfterMs == w.userRetryAfterMs
  {
  }

  // ---- Fixed windows ----

  datatype Counter = Counter(count: nat, expireAt: int)

  function Current(counters: map<string, Counter>, key: string, now: int): (c: Option<Counter>)
    ensures c.Some? ==> now < c.value.expireAt
  {
    if key in counters && now < counters[key].expireAt then Some(counters[key]) else None
  }

  function Charge(c: Option<Counter>, now: int, limit: int, windowMs: nat): (Counter, int) {
    var next := match c
                case None => Counter(1, now + windowMs)
                case Some(k) => Counter(k.count + 1, k.expireAt);
    (next, if next.count > limit then next.expireAt - now else 0)
  }

  predicate Blocked(c: Option<Counter>, limit: int) {
    c.Some? && c.value.count >= limit
  }

  /** The free check agrees with the charge that would follow, except for a limit below
      one on a key that has no window yet. */
  lemma CheckAgreesWithChargeIff(counters: map<string, Counter>, key: string, now: int, limit: int, windowMs: nat)
    requires windowMs >= 1
    ensures
      var c := Current(counters, key, now);
      (Blocked(c, limit) <==> Charge(c, now, limit, windowMs).1 > 0) <==> (limit >= 1 || c.Some?)
  {
  }

  function WindowGrants(c: Option<Counter>, times: seq<int>, limit: int, windowMs: nat): nat
    decreases |times|
  {
    if times == [] then 0 else
      var live := if c.Some? && times[0] < c.value.expireAt then c else None;
      var (next, wait) := Charge(live, times[0], limit, windowMs);
      (if wait == 0 then 1 else 0) + WindowGrants(Some(next), times[1..], limit, windowMs)
  }

  /** Within one window exactly the first `limit` charges pass; a later one is told the time to the
      window's end, which the first charge fixed. */
  lemma {:induction false} OneWindowExact(first: int, times: seq<int>, limit: nat, windowMs: nat, c: Counter)
    requires Monotone(times) && (forall t :: t in times ==> first <= t < first + windowMs)
    requires c.expireAt == first + windowMs
    ensures WindowGrants(Some(c), times, limit, windowMs)
      == (if c.count >= limit then 0 else if |times| <= limit - c.count then |times| else limit - c.count)
    decreases |times|
  {
    if times != [] {
      assert times[0] in times;
      TailMonotone(times);
      OneWindowExact(first, times[1..], limit, windowMs, Counter(c.count + 1, c.expireAt));
    }
  }

  lemma ChargeMeans(c: Option<Counter>, now: int, limit: int, windowMs: nat)
    requires c.Some? ==> now < c.value.expireAt
    ensures
      var (next, wait) := Charge(c, now, limit, windowMs);
      && (c == None ==> next == Counter(1, now + windowMs))
      && (c.Some? ==> next == Counter(c.value.count + 1, c.value.expireAt))
      && (next.count <= limit ==> wait == 0) && (next.count > limit ==> wait == next.expireAt - now)
    ensures Blocked(c, limit) <==> c.Some? && c.value.count >= limit
  {
  }

  lemma {:induction false} WithinOneWindow(c: Counter, times: seq<int>, limit: nat, windowMs: nat)
    requires Monotone(times) && forall t :: t in times ==> t < c.expireAt
    ensures WindowGrants(Some(c), times, limit, windowMs) <= if limit > c.count then limit - c.count else 0
    decreases |times|
  {
    if times != [] {
      assert times[0] in times;
      var rest := times[1..];
      TailMonotone(times);
      WithinOneWindow(Counter(c.count + 1, c.expireAt), rest, limit, windowMs);
    }
  }

  lemma {:induction false} AcrossWindows(c: Counter, times: seq<int>, from: int, limit: nat, windowMs: nat)
    requires Monotone(times) && forall t :: t in times ==> from <= t < from + windowMs
    ensures WindowGrants(Some(c), times, limit, windowMs) <= (if limit > c.count then limit - c.count else 0) + limit
    decreases |times|
  {
    if times != [] {
      var t := times[0];
      assert t in times;
      var rest := times[1..];
      TailMonotone(times);
      if t < c.expireAt {
        AcrossWindows(Counter(c.count + 1, c.expireAt), rest, from, limit, windowMs);
      } else {
        WithinOneWindow(Counter(1, t + windowMs), rest, limit, windowMs);
      }
    }
  }

  /** Without resets, any interval shorter than the window meets at most two windows, so it
      sees at most twice the limit. */
  lemma WindowRateBounded(c: Option<Counter>, times: seq<int>, from: int, limit: nat, windowMs: nat)
    requires Monotone(times) && forall t :: t in times ==> from <= t < from + windowMs
    ensures WindowGrants(c, times, limit, windowMs) <= 2 * limit
  {
    if c.Some? {
      AcrossWindows(c.value, times, from, limit, windowMs);
    } else if times != [] {
      var stale := Counter(0, times[0]);
      AcrossWindows(stale, times, from, limit, windowMs);
      assert WindowGrants(None, times, limit, windowMs) == WindowGrants(Some(stale), times, limit, windowMs);
    }
  }
}
