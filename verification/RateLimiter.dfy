/**
 The token-bucket limiter with its lazy sweep of stale keys.  Time is real seconds and comes
 in with each request; token counts are real numbers.
 */
module RateLimiting {

  datatype Limit = Limit(capacity: nat, refill: real)

  datatype Bucket = Bucket(tokens: real, last: real)

  type Buckets = map<string, Bucket>

  datatype Request = Request(key: string, cost: nat, at: real)

  /** `n` tokens per interval of so many seconds. */
  function Per(n: nat, seconds: nat): Limit
    requires seconds > 0
  {
    Limit(n, n as real / seconds as real)
  }

  /** The tokens that drip in over a number of seconds. */
  function Drip(l: Limit, seconds: real): real {
    seconds * l.refill
  }

  lemma DripIsNonNegative(l: Limit, seconds: real)
    requires l.refill >= 0.0 && seconds >= 0.0
    ensures Drip(l, seconds) >= 0.0
  {
  }

  lemma DripAdds(l: Limit, a: real, b: real, c: real)
    ensures Drip(l, c - a) == Drip(l, b - a) + Drip(l, c - b)
  {
  }

  /** What has dripped in since the last touch, up to the capacity; a rewound clock adds nothing. */
  function Refilled(l: Limit, b: Bucket, at: real): Bucket {
    var elapsed := at - b.last;
    var more := b.tokens + Drip(l, elapsed);
    Bucket(if elapsed <= 0.0 then b.tokens else if more > l.capacity as real then l.capacity as real else more, at)
  }

  predicate Stale(b: Bucket, ttl: real, at: real) {
    at - b.last > ttl
  }

  function Swept(bs: Buckets, ttl: real, at: real): Buckets {
    map k | k in bs && !Stale(bs[k], ttl, at) :: bs[k]
  }

  /** The bucket a request finds: a new key starts full. */
  function Found(l: Limit, bs: Buckets, key: string, at: real): Bucket {
    if key in bs then Refilled(l, bs[key], at) else Bucket(l.capacity as real, at)
  }

  predicate Grants(l: Limit, bs: Buckets, r: Request) {
    Found(l, bs, r.key, r.at).tokens >= r.cost as real
  }

  /** A limiter that never forgets a key. */
  function Taken(l: Limit, bs: Buckets, r: Request): Buckets {
    var b := Found(l, bs, r.key, r.at);
    bs[r.key := if Grants(l, bs, r) then b.(tokens := b.tokens - r.cost as real) else b]
  }

  class RateLimiter {
    const limit: Limit
    const ttl: real
    var buckets: Buckets

    constructor (l: Limit, seconds: real := 3600.0)
      ensures limit == l && ttl == seconds && buckets == map[]
    {
      limit, ttl, buckets := l, seconds, map[];
    }

    /** Drops every bucket untouched for longer than the time to live. */
    method Sweep(at: real) returns (removed: nat)
      modifies this
      ensures buckets == Swept(old(buckets), ttl, at) && removed + |buckets| == |old(buckets)|
    {
      removed := 0;
      var todo := buckets.Keys;
      while todo != {}
        invariant todo <= buckets.Keys <= old(buckets).Keys
        invariant forall k :: k in buckets ==> buckets[k] == old(buckets)[k]
        invariant forall k :: k in old(buckets) && k !in todo ==> (k in buckets <==> !Stale(old(buckets)[k], ttl, at))
        invariant removed + |buckets| == |old(buckets)|
      {
        var k :| k in todo;
        todo := todo - {k};
        if at - buckets[k].last > ttl {
          RemovedSize(buckets, k);
          buckets := buckets - {k};
          removed := removed + 1;
        }
      }
    }

    method Refill(key: string, at: real)
      requires key in buckets
      modifies this
      ensures buckets == old(buckets)[key := Refilled(limit, old(buckets)[key], at)]
    {
      var b := buckets[key];
      var elapsed := at - b.last;
      if elapsed > 0.0 {
        b := b.(tokens := b.tokens + elapsed * limit.refill);
        if b.tokens > limit.capacity as real {
          b := b.(tokens := limit.capacity as real);
        }
      }
      assert b.(last := at) == Refilled(limit, buckets[key], at);
      buckets := buckets[key := b.(last := at)];
    }

    method TryTake(key: string, cost: nat, at: real) returns (granted: bool)
      modifies this
      ensures var bs := Swept(old(buckets), ttl, at);
        && granted == Grants(limit, bs, Request(key, cost, at))
        && buckets == Taken(limit, bs, Request(key, cost, at))
    {
      var removed := Sweep(at);
      if key !in buckets {
        buckets := buckets[key := Bucket(limit.capacity as real, at)];
      } else {
        Refill(key, at);
      }
      var b := buckets[key];
      if b.tokens < cost as real {
        return false;
      }
      buckets := buckets[key := b.(tokens := b.tokens - cost as real)];
      return true;
    }
  }

  lemma RemovedSize(bs: Buckets, k: string)
    requires k in bs
    ensures |bs - {k}| == |bs| - 1
  {
    assert (bs - {k}).Keys == bs.Keys - {k};
    assert |bs| == |bs.Keys| && |bs - {k}| == |(bs - {k}).Keys|;
  }

  // ---------------------------------------------------------------- runs

  predicate Monotone(rs: seq<Request>) {
    forall i, j :: 0 <= i < j < |rs| ==> rs[i].at <= rs[j].at
  }

  /** The buckets after a run of the never-forgetting limiter. */
  function Kept(l: Limit, rs: seq<Request>): Buckets {
    if rs == [] then map[] else Taken(l, Kept(l, rs[..|rs| - 1]), rs[|rs| - 1])
  }

  /** The buckets after a run of the sweeping limiter. */
  function Lazy(l: Limit, ttl: real, rs: seq<Request>): Buckets {
    if rs == [] then map[]
    else Taken(l, Swept(Lazy(l, ttl, rs[..|rs| - 1]), ttl, rs[|rs| - 1].at), rs[|rs| - 1])
  }

  predicate KeptGrants(l: Limit, rs: seq<Request>, i: nat)
    requires i < |rs|
  {
    Grants(l, Kept(l, rs[..i]), rs[i])
  }

  predicate LazyGrants(l: Limit, ttl: real, rs: seq<Request>, i: nat)
    requires i < |rs|
  {
    Grants(l, Swept(Lazy(l, ttl, rs[..i]), ttl, rs[i].at), rs[i])
  }

  // ---------------------------------------------------------------- forgetting is harmless

  /** What the sweeping limiter dropped would be full again anyway. */
  predicate Forgets(l: Limit, ttl: real, lazy: Buckets, kept: Buckets, now: real) {
    && (forall k :: k in lazy ==> k in kept && kept[k] == lazy[k])
    && (forall k :: k in kept ==> 0.0 <= kept[k].tokens <= l.capacity as real && kept[k].last <= now)
    && (forall k :: k in kept && k !in lazy ==> Stale(kept[k], ttl, now))
  }

  lemma StaleIsFull(l: Limit, ttl: real, b: Bucket, at: real)
    requires l.refill >= 0.0 && ttl >= 0.0 && Drip(l, ttl) >= l.capacity as real
    requires b.tokens >= 0.0 && Stale(b, ttl, at)
    ensures Refilled(l, b, at) == Bucket(l.capacity as real, at)
  {
    hide Drip;
    DripAdds(l, b.last, b.last + ttl, at);
    assert b.last + ttl - b.last == ttl;
    DripIsNonNegative(l, at - (b.last + ttl));
  }

  lemma RefilledBounds(l: Limit, b: Bucket, at: real)
    requires l.refill >= 0.0 && 0.0 <= b.tokens <= l.capacity as real
    ensures 0.0 <= Refilled(l, b, at).tokens <= l.capacity as real
  {
    hide Drip;
    if at > b.last {
      DripIsNonNegative(l, at - b.last);
    }
  }

  lemma OneRequestForgets(l: Limit, ttl: real, lazy: Buckets, kept: Buckets, now: real, r: Request)
    requires l.refill >= 0.0 && ttl >= 0.0 && Drip(l, ttl) >= l.capacity as real
    requires Forgets(l, ttl, lazy, kept, now) && now <= r.at
    ensures var swept := Swept(lazy, ttl, r.at);
      && Grants(l, swept, r) == Grants(l, kept, r)
      && Forgets(l, ttl, Taken(l, swept, r), Taken(l, kept, r), r.at)
  {
    hide Refilled, Drip;
    if r.key in kept {
      RefilledBounds(l, kept[r.key], r.at);
      if Stale(kept[r.key], ttl, r.at) {
        StaleIsFull(l, ttl, kept[r.key], r.at);
      }
    }
    assert Found(l, Swept(lazy, ttl, r.at), r.key, r.at) == Found(l, kept, r.key, r.at);
    assert Found(l, kept, r.key, r.at).last == r.at by {
      RefilledLast(l, kept, r.key, r.at);
    }
  }

  lemma RefilledLast(l: Limit, bs: Buckets, key: string, at: real)
    ensures Found(l, bs, key, at).last == at
  {
  }

  lemma {:induction false} LazyForgets(l: Limit, ttl: real, rs: seq<Request>, now: real)
    requires l.refill >= 0.0 && ttl >= 0.0 && Drip(l, ttl) >= l.capacity as real
    requires Monotone(rs) && forall r :: r in rs ==> r.at <= now
    ensures Forgets(l, ttl, Lazy(l, ttl, rs), Kept(l, rs), now)
  {
    hide Taken, Swept, Forgets;
    if rs == [] {
      NothingToForget(l, ttl, now);
    } else {
      var last := rs[|rs| - 1];
      LazyForgets(l, ttl, rs[..|rs| - 1], last.at);
      OneRequestForgets(l, ttl, Lazy(l, ttl, rs[..|rs| - 1]), Kept(l, rs[..|rs| - 1]), last.at, last);
      assert last in rs;
      LaterStillForgets(l, ttl, Lazy(l, ttl, rs), Kept(l, rs), last.at, now);
    }
  }

  lemma NothingToForget(l: Limit, ttl: real, now: real)
    ensures Forgets(l, ttl, map[], map[], now)
  {
  }

  lemma LaterStillForgets(l: Limit, ttl: real, lazy: Buckets, kept: Buckets, now: real, later: real)
    requires Forgets(l, ttl, lazy, kept, now) && now <= later
    ensures Forgets(l, ttl, lazy, kept, later)
  {
  }

  /** The sweeping limiter decides every request as the never-forgetting one does. */
  ghost predicate SameDecisions(l: Limit, ttl: real, rs: seq<Request>) {
    forall i :: 0 <= i < |rs| ==> LazyGrants(l, ttl, rs, i) == KeptGrants(l, rs, i)
  }

  lemma ForgettingIsHarmless(l: Limit, ttl: real, rs: seq<Request>)
    requires l.refill >= 0.0 && ttl >= 0.0 && Drip(l, ttl) >= l.capacity as real && Monotone(rs)
    ensures SameDecisions(l, ttl, rs)
  {
    hide Swept, Forgets, Taken, Grants;
    forall i | 0 <= i < |rs|
      ensures LazyGrants(l, ttl, rs, i) == KeptGrants(l, rs, i)
    {
      assert forall r :: r in rs[..i] ==> r.at <= rs[i].at;
      LazyForgets(l, ttl, rs[..i], rs[i].at);
      OneRequestForgets(l, ttl, Lazy(l, ttl, rs[..i]), Kept(l, rs[..i]), rs[i].at, rs[i]);
    }
  }

  /** Spend the burst, wait a little longer than the time to live, and ask for the burst again. */
  lemma ForgettingCanRefund(l: Limit, ttl: real) returns (rs: seq<Request>)
    requires l.refill >= 0.0 && ttl >= 0.0 && Drip(l, ttl) < l.capacity as real
    ensures Monotone(rs) && |rs| == 2 && LazyGrants(l, ttl, rs, 1) && !KeptGrants(l, rs, 1)
  {
    var cap := l.capacity as real;
    var wait := if l.refill == 0.0 then ttl + 1.0 else (ttl + cap / l.refill) / 2.0;
    WaitFits(l, ttl, wait);
    var first, second := Request("k", l.capacity, 0.0), Request("k", l.capacity, wait);
    rs := [first, second];
    assert rs[..1] == [first] && rs[..1][..0] == [];
    var after := Taken(l, map[], first);
    assert after == map["k" := Bucket(0.0, 0.0)];
    assert Kept(l, rs[..1]) == after && Lazy(l, ttl, rs[..1]) == after by {
      assert Swept(map[], ttl, 0.0) == map[];
      assert [first][..0] == [];
    }
    assert Swept(after, ttl, wait) == map[];
    assert Refilled(l, Bucket(0.0, 0.0), wait).tokens == wait * l.refill;
  }

  lemma DripOrdersTime(l: Limit, a: real, b: real)
    requires l.refill > 0.0
    ensures a < b <==> Drip(l, a) < Drip(l, b)
  {
    DripAdds(l, 0.0, a, b);
    DripAdds(l, 0.0, b, a);
    if a < b {
      assert (b - a) * l.refill > 0.0;
    } else {
      DripIsNonNegative(l, a - b);
    }
  }

  lemma WaitFits(l: Limit, ttl: real, wait: real)
    requires l.refill >= 0.0 && ttl >= 0.0 && Drip(l, ttl) < l.capacity as real
    requires wait == if l.refill == 0.0 then ttl + 1.0 else (ttl + l.capacity as real / l.refill) / 2.0
    ensures wait > ttl && Drip(l, wait) < l.capacity as real
  {
    if l.refill > 0.0 {
      var full := l.capacity as real / l.refill;
      assert Drip(l, full) == l.capacity as real;
      hide Drip;
      DripOrdersTime(l, ttl, full);
      DripOrdersTime(l, wait, full);
    }
  }

  /**
   The sweep changes no decision of any run with a monotone clock exactly when an idle bucket
   fills up within the time to live.
   */
  lemma ForgettingIsHarmlessIff(l: Limit, ttl: real)
    requires l.refill >= 0.0 && ttl >= 0.0
    ensures (forall rs :: Monotone(rs) ==> SameDecisions(l, ttl, rs)) <==> Drip(l, ttl) >= l.capacity as real
  {
    if Drip(l, ttl) >= l.capacity as real {
      forall rs | Monotone(rs)
        ensures SameDecisions(l, ttl, rs)
      {
        ForgettingIsHarmless(l, ttl, rs);
      }
    } else {
      var rs := ForgettingCanRefund(l, ttl);
      assert !SameDecisions(l, ttl, rs) by {
        assert LazyGrants(l, ttl, rs, 1) != KeptGrants(l, rs, 1);
      }
    }
  }

  const PRESETS: seq<Limit> := [Per(5, 60), Per(10, 3600), Per(3, 3600), Per(10, 60), Per(20, 60), Per(10, 1)]

  /** Every preset fills up within the default hour. */
  lemma PresetsForgetHarmlessly(l: Limit, rs: seq<Request>)
    requires l in PRESETS && Monotone(rs)
    ensures SameDecisions(l, 3600.0, rs)
  {
    assert Per(5, 60).refill == 5.0 / 60.0 && Per(10, 3600).refill == 10.0 / 3600.0 && Per(3, 3600).refill == 3.0 / 3600.0;
    ForgettingIsHarmless(l, 3600.0, rs);
  }

  // ---------------------------------------------------------------- the window bound

  /** The cost granted to `key` by requests `i` up to `j`. */
  function Granted(l: Limit, rs: seq<Request>, key: string, i: nat, j: nat): nat
    requires i <= j <= |rs|
    decreases j
  {
    if i == j then 0
    else Granted(l, rs, key, i, j - 1) + (if rs[j - 1].key == key && KeptGrants(l, rs, j - 1) then rs[j - 1].cost else 0)
  }

  /** What `key` could spend at `at`. */
  function Level(l: Limit, bs: Buckets, key: string, at: real): real {
    Found(l, bs, key, at).tokens
  }

  /** Every bucket holds something between nothing and the capacity. */
  predicate Within(l: Limit, bs: Buckets) {
    forall k :: k in bs ==> 0.0 <= bs[k].tokens <= l.capacity as real
  }

  function Upward(a: real, b: real): real {
    if b > a then b - a else 0.0
  }

  /** From one reading to any other, later or earlier, a level grows by no more than the upward step. */
  lemma LevelGrowsSlowly(l: Limit, bs: Buckets, key: string, now: real, at: real)
    requires l.refill >= 0.0 && Within(l, bs)
    ensures 0.0 <= Level(l, bs, key, at) <= l.capacity as real
    ensures Level(l, bs, key, at) <= Level(l, bs, key, now) + Drip(l, Upward(now, at))
  {
    hide Drip;
    DripIsNonNegative(l, Upward(now, at));
    if key in bs {
      var last := bs[key].last;
      RefilledBounds(l, bs[key], at);
      RefilledBounds(l, bs[key], now);
      if now > last {
        DripIsNonNegative(l, now - last);
      }
      if at > last {
        if now > last {
          DripAdds(l, last, now, at);
          DripGrows(l, at - now, Upward(now, at));
        } else {
          DripGrows(l, at - last, Upward(now, at));
        }
      }
    }
  }

  lemma DripGrows(l: Limit, a: real, b: real)
    requires l.refill >= 0.0 && a <= b
    ensures Drip(l, a) <= Drip(l, b)
  {
    DripAdds(l, 0.0, a, b);
    DripIsNonNegative(l, b - a);
  }

  /** A request takes what it is granted from its own key and leaves the others alone. */
  lemma TakingLowersLevel(l: Limit, bs: Buckets, r: Request, key: string)
    requires l.refill >= 0.0 && Within(l, bs)
    ensures Within(l, Taken(l, bs, r))
    ensures Level(l, Taken(l, bs, r), key, r.at) ==
      Level(l, bs, key, r.at) - if r.key == key && Grants(l, bs, r) then r.cost as real else 0.0
  {
    if r.key in bs {
      RefilledBounds(l, bs[r.key], r.at);
    }
    RefilledLast(l, bs, r.key, r.at);
  }

  lemma {:induction false} KeptIsWithin(l: Limit, rs: seq<Request>)
    requires l.refill >= 0.0
    ensures Within(l, Kept(l, rs))
  {
    hide Taken, Within;
    if rs == [] {
      NothingIsWithin(l);
    } else {
      KeptIsWithin(l, rs[..|rs| - 1]);
      TakingLowersLevel(l, Kept(l, rs[..|rs| - 1]), rs[|rs| - 1], "");
    }
  }

  lemma NothingIsWithin(l: Limit)
    ensures Within(l, map[])
  {
  }

  lemma GrantedLast(l: Limit, rs: seq<Request>, key: string, i: nat, j: nat)
    requires i < j <= |rs|
    ensures Granted(l, rs, key, i, j) as real == Granted(l, rs, key, i, j - 1) as real
      + if rs[j - 1].key == key && KeptGrants(l, rs, j - 1) then rs[j - 1].cost as real else 0.0
  {
    hide Grants, Kept;
  }

  /** The readings of the clock in a run. */
  function Times(rs: seq<Request>): (ts: seq<real>)
    ensures |ts| == |rs| && forall k :: 0 <= k < |rs| ==> ts[k] == rs[k].at
  {
    seq(|rs|, k requires 0 <= k < |rs| => rs[k].at)
  }

  /** How far the clock has gone up between the readings `i` and `j - 1`, whatever it has gone down. */
  function Rise(ts: seq<real>, i: nat, j: nat): real
    requires i < j <= |ts|
    decreases j
  {
    if j == i + 1 then 0.0 else Rise(ts, i, j - 1) + Upward(ts[j - 2], ts[j - 1])
  }

  /** Whatever the clock does: what was granted since request `i`, and what is left, stay within the burst and what dripped in on the way up. */
  lemma {:induction false} SpentAndLeft(l: Limit, rs: seq<Request>, key: string, i: nat, j: nat)
    requires l.refill >= 0.0 && i < j <= |rs|
    ensures Granted(l, rs, key, i, j) as real + Level(l, Kept(l, rs[..j]), key, rs[j - 1].at)
      <= l.capacity as real + Drip(l, Rise(Times(rs), i, j))
    decreases j
  {
    hide Level, Taken, Grants, Within, Granted, Drip, Upward, Times;
    var r := rs[j - 1];
    var before := Kept(l, rs[..j - 1]);
    KeptStep(l, rs, j - 1);
    KeptIsWithin(l, rs[..j - 1]);
    TakingLowersLevel(l, before, r, key);
    GrantedLast(l, rs, key, i, j);
    if i == j - 1 {
      LevelGrowsSlowly(l, before, key, r.at, r.at);
      NothingGranted(l, rs, key, i);
      DripIsNonNegative(l, 0.0);
    } else {
      SpentAndLeft(l, rs, key, i, j - 1);
      LevelGrowsSlowly(l, before, key, rs[j - 2].at, r.at);
      DripOfSum(l, Rise(Times(rs), i, j - 1), Upward(rs[j - 2].at, r.at));
    }
  }

  lemma DripOfSum(l: Limit, a: real, b: real)
    ensures Drip(l, a + b) == Drip(l, a) + Drip(l, b)
  {
  }

  lemma NothingGranted(l: Limit, rs: seq<Request>, key: string, i: nat)
    requires i <= |rs|
    ensures Granted(l, rs, key, i, i) == 0
  {
  }

  /** In any window of any run a key is granted at most the burst plus what drips in while the clock goes up. */
  lemma EveryClockBound(l: Limit, rs: seq<Request>, key: string, i: nat, j: nat)
    requires l.refill >= 0.0 && i < j <= |rs|
    ensures Granted(l, rs, key, i, j) as real <= l.capacity as real + l.refill * Rise(Times(rs), i, j)
  {
    hide Taken, Granted, Level, Kept, Within, Rise, Times;
    SpentAndLeft(l, rs, key, i, j);
    KeptIsWithin(l, rs[..j]);
    LevelGrowsSlowly(l, Kept(l, rs[..j]), key, rs[j - 1].at, rs[j - 1].at);
  }

  /** The clock is not set back between the readings `i` and `j - 1`. */
  predicate Rising(ts: seq<real>, i: nat, j: nat)
    requires i < j <= |ts|
  {
    forall k :: i < k < j ==> ts[k - 1] <= ts[k]
  }

  /** The way up is at least the way from end to end, and longer as soon as there is a step back. */
  lemma {:induction false} RiseIsWayUp(ts: seq<real>, i: nat, j: nat)
    requires i < j <= |ts|
    ensures Rise(ts, i, j) >= ts[j - 1] - ts[i] && Rise(ts, i, j) >= 0.0
    ensures Rise(ts, i, j) == ts[j - 1] - ts[i] <==> Rising(ts, i, j)
    decreases j
  {
    if j > i + 1 {
      RiseIsWayUp(ts, i, j - 1);
      assert Rising(ts, i, j) <==> Rising(ts, i, j - 1) && ts[j - 2] <= ts[j - 1];
    }
  }

  /** In any window in which the clock is not set back: at most the burst plus what drips in from end to end. */
  lemma WindowBound(l: Limit, rs: seq<Request>, key: string, i: nat, j: nat)
    requires l.refill >= 0.0 && i < j <= |rs| && Rising(Times(rs), i, j)
    ensures Granted(l, rs, key, i, j) as real <= l.capacity as real + l.refill * (rs[j - 1].at - rs[i].at)
  {
    hide Granted, Rise;
    EveryClockBound(l, rs, key, i, j);
    RiseIsWayUp(Times(rs), i, j);
  }

  // ---------------------------------------------------------------- a clock that is set back

  /** Nothing for the key before reading `i`; from then on it spends all it has at every reading. */
  function Spree(l: Limit, ts: seq<real>, i: nat, n: nat): (rs: seq<Request>)
    requires n <= |ts|
    ensures |rs| == n && forall k :: 0 <= k < n ==> rs[k].at == ts[k]
  {
    if n == 0 then [] else
      var before := Spree(l, ts, i, n - 1);
      var at := ts[n - 1];
      before + [if n - 1 < i then Request("other", 0, at) else Request("k", WholeTokens(Level(l, Kept(l, before), "k", at)), at)]
  }

  function WholeTokens(level: real): nat {
    if level < 0.0 then 0 else level.Floor
  }

  lemma {:induction false} SpreePrefix(l: Limit, ts: seq<real>, i: nat, m: nat, n: nat)
    requires m <= n <= |ts|
    ensures Spree(l, ts, i, n)[..m] == Spree(l, ts, i, m)
    decreases n
  {
    hide Kept, Level, WholeTokens;
    if m < n {
      SpreePrefix(l, ts, i, m, n - 1);
      assert Spree(l, ts, i, n)[..m] == Spree(l, ts, i, n - 1)[..m];
    }
  }

  lemma SpreeLast(l: Limit, ts: seq<real>, i: nat, n: nat)
    requires i < n <= |ts|
    ensures Spree(l, ts, i, n)[n - 1] ==
      Request("k", WholeTokens(Level(l, Kept(l, Spree(l, ts, i, n - 1)), "k", ts[n - 1])), ts[n - 1])
  {
    hide Kept, Level, WholeTokens;
  }

  lemma {:induction false} NothingBefore(l: Limit, ts: seq<real>, i: nat, n: nat)
    requires n <= i && n <= |ts|
    ensures "k" !in Kept(l, Spree(l, ts, i, n))
  {
    hide Level, WholeTokens;
    if n > 0 {
      NothingBefore(l, ts, i, n - 1);
      var rs := Spree(l, ts, i, n);
      assert rs[..n - 1] == Spree(l, ts, i, n - 1);
      assert rs[n - 1].key == "other";
    }
  }

  /** Spending everything leaves less than one token, all of it granted. */
  lemma SpendsAll(l: Limit, bs: Buckets, at: real)
    requires l.refill >= 0.0 && Within(l, bs)
    ensures var r := Request("k", WholeTokens(Level(l, bs, "k", at)), at);
      && Grants(l, bs, r)
      && Level(l, Taken(l, bs, r), "k", at) == Level(l, bs, "k", at) - r.cost as real
      && 0.0 <= Level(l, Taken(l, bs, r), "k", at) < 1.0
      && "k" in Taken(l, bs, r) && Taken(l, bs, r)["k"].last == at
  {
    LevelGrowsSlowly(l, bs, "k", at, at);
    RefilledLast(l, bs, "k", at);
    TakingLowersLevel(l, bs, Request("k", WholeTokens(Level(l, bs, "k", at)), at), "k");
  }

  /** With room in the bucket a level grows by the whole of an upward step. */
  lemma RoomToGrow(l: Limit, bs: Buckets, at: real)
    requires l.refill >= 0.0 && "k" in bs
    requires Level(l, bs, "k", bs["k"].last) + Drip(l, Upward(bs["k"].last, at)) <= l.capacity as real
    ensures Level(l, bs, "k", at) == Level(l, bs, "k", bs["k"].last) + Drip(l, Upward(bs["k"].last, at))
  {
  }

  /** In a bucket with room for everything the account is exact. */
  lemma {:induction false} SpreeIsExact(l: Limit, ts: seq<real>, i: nat, j: nat, n: nat)
    requires l.refill >= 0.0 && i < n <= j <= |ts| && l.capacity as real >= Drip(l, Rise(ts, i, j)) + 1.0
    ensures var rs := Spree(l, ts, i, |ts|); var bs := Kept(l, rs[..n]);
      && "k" in bs && bs["k"].last == ts[n - 1]
      && Level(l, bs, "k", ts[n - 1]) < 1.0
      && Granted(l, rs, "k", i, n) as real + Level(l, bs, "k", ts[n - 1]) == l.capacity as real + Drip(l, Rise(ts, i, n))
    decreases n
  {
    hide Kept, Level, Taken, Grants, Granted, Drip, Within, WholeTokens, Upward, Found, Spree;
    var rs := Spree(l, ts, i, |ts|);
    var before := Kept(l, rs[..n - 1]);
    var at := ts[n - 1];
    SpreePrefix(l, ts, i, n, |ts|);
    SpreePrefix(l, ts, i, n - 1, |ts|);
    SpreeLast(l, ts, i, n);
    assert rs[n - 1] == rs[..n][n - 1] == Request("k", WholeTokens(Level(l, before, "k", at)), at);
    KeptStep(l, rs, n - 1);
    KeptIsWithin(l, rs[..n - 1]);
    SpendsAll(l, before, at);
    GrantedLast(l, rs, "k", i, n);
    if n == i + 1 {
      NothingBefore(l, ts, i, i);
      FullAtFirst(l, before, at);
      NothingGranted(l, rs, "k", i);
      DripOfNothing(l);
    } else {
      SpreeIsExact(l, ts, i, j, n - 1);
      var step := Upward(ts[n - 2], at);
      DripOfSum(l, Rise(ts, i, n - 1), step);
      RiseGrows(ts, i, n, j);
      DripGrows(l, Rise(ts, i, n), Rise(ts, i, j));
      RiseIsWayUp(ts, i, n - 1);
      DripIsNonNegative(l, Rise(ts, i, n - 1));
      RoomToGrow(l, before, at);
      assert Rise(ts, i, n) == Rise(ts, i, n - 1) + step;
    }
  }

  lemma DripOfNothing(l: Limit)
    ensures Drip(l, 0.0) == 0.0
  {
  }

  lemma FullAtFirst(l: Limit, bs: Buckets, at: real)
    requires "k" !in bs
    ensures Level(l, bs, "k", at) == l.capacity as real
  {
  }

  lemma {:induction false} RiseGrows(ts: seq<real>, i: nat, n: nat, j: nat)
    requires i < n <= j <= |ts|
    ensures Rise(ts, i, n) <= Rise(ts, i, j)
    decreases j
  {
    if n < j {
      RiseGrows(ts, i, n, j - 1);
    }
  }

  /** A limit for which the steps back in a window are worth one token, with room for all that drips in. */
  function Tight(ts: seq<real>, i: nat, j: nat): (l: Limit)
    requires i < j <= |ts| && !Rising(ts, i, j)
  {
    RiseIsWayUp(ts, i, j);
    var refill := 1.0 / (Rise(ts, i, j) - (ts[j - 1] - ts[i]));
    Limit(WholeTokens(Rise(ts, i, j) * refill + 2.0), refill)
  }

  lemma TightFits(ts: seq<real>, i: nat, j: nat)
    requires i < j <= |ts| && !Rising(ts, i, j)
    ensures var l := Tight(ts, i, j);
      && l.refill > 0.0 && l.capacity as real >= Drip(l, Rise(ts, i, j)) + 1.0
      && l.refill * Rise(ts, i, j) == l.refill * (ts[j - 1] - ts[i]) + 1.0
  {
    hide Rise, Rising;
    RiseIsWayUp(ts, i, j);
    var fall := Rise(ts, i, j) - (ts[j - 1] - ts[i]);
    var l := Tight(ts, i, j);
    assert l.refill * fall == 1.0;
    assert Rise(ts, i, j) == fall + (ts[j - 1] - ts[i]);
    DripIsNonNegative(l, Rise(ts, i, j));
  }

  /** Some limit and some run with these readings exceed the bound in a window with a step back. */
  lemma SetBackRefunds(ts: seq<real>, i: nat, j: nat) returns (l: Limit, rs: seq<Request>)
    requires i < j <= |ts| && !Rising(ts, i, j)
    ensures l.refill > 0.0 && Times(rs) == ts
    ensures Granted(l, rs, "k", i, j) as real > l.capacity as real + l.refill * (ts[j - 1] - ts[i])
  {
    hide Tight, Granted, Rise, Level, Kept, Rising;
    l := Tight(ts, i, j);
    rs := Spree(l, ts, i, |ts|);
    TightFits(ts, i, j);
    SpreeIsExact(l, ts, i, j, j);
    assert Drip(l, Rise(ts, i, j)) == l.refill * Rise(ts, i, j);
  }

  /** In the window from request `i` to `j - 1` nobody is ever granted more than the burst plus the drip from end to end. */
  ghost predicate BoundHolds(ts: seq<real>, i: nat, j: nat)
    requires i < j <= |ts|
  {
    forall l: Limit, rs: seq<Request>, key: string :: l.refill >= 0.0 && Times(rs) == ts ==>
      Granted(l, rs, key, i, j) as real <= l.capacity as real + l.refill * (ts[j - 1] - ts[i])
  }

  /**
   For given readings of the clock the bound holds of a window, for every limit and every run,
   exactly when the clock is not set back inside that window.
   */
  lemma WindowBoundIff(ts: seq<real>, i: nat, j: nat)
    requires i < j <= |ts|
    ensures BoundHolds(ts, i, j) <==> Rising(ts, i, j)
  {
    hide Granted, Rising;
    if Rising(ts, i, j) {
      forall l: Limit, rs: seq<Request>, key: string | l.refill >= 0.0 && Times(rs) == ts
        ensures Granted(l, rs, key, i, j) as real <= l.capacity as real + l.refill * (ts[j - 1] - ts[i])
      {
        WindowBound(l, rs, key, i, j);
      }
    } else {
      var l, rs := SetBackRefunds(ts, i, j);
    }
  }

  /** Hence it holds of every window with ends in order exactly when no such window has a step back in it. */
  lemma RunBoundIff(ts: seq<real>)
    ensures (forall i: nat, j: nat :: i < j <= |ts| && ts[i] <= ts[j - 1] ==> BoundHolds(ts, i, j))
      <==> (forall i: nat, j: nat :: i < j <= |ts| && ts[i] <= ts[j - 1] ==> Rising(ts, i, j))
  {
    hide BoundHolds, Rising;
    forall i: nat, j: nat | i < j <= |ts|
      ensures BoundHolds(ts, i, j) <==> Rising(ts, i, j)
    {
      WindowBoundIff(ts, i, j);
    }
  }

  function LazyGranted(l: Limit, ttl: real, rs: seq<Request>, key: string, i: nat, j: nat): nat
    requires i <= j <= |rs|
    decreases j
  {
    if i == j then 0
    else
      var last := if rs[j - 1].key == key && LazyGrants(l, ttl, rs, j - 1) then rs[j - 1].cost else 0;
      LazyGranted(l, ttl, rs, key, i, j - 1) + last
  }

  lemma {:induction false} LazyIsWithin(l: Limit, ttl: real, rs: seq<Request>)
    requires l.refill >= 0.0
    ensures Within(l, Lazy(l, ttl, rs))
  {
    hide Taken;
    if rs != [] {
      LazyIsWithin(l, ttl, rs[..|rs| - 1]);
      TakingLowersLevel(l, Swept(Lazy(l, ttl, rs[..|rs| - 1]), ttl, rs[|rs| - 1].at), rs[|rs| - 1], "");
    }
  }

  /** A sweep changes no level: what it drops is full by then. */
  lemma SweepKeepsLevel(l: Limit, ttl: real, bs: Buckets, key: string, at: real)
    requires l.refill >= 0.0 && ttl >= 0.0 && Drip(l, ttl) >= l.capacity as real && Within(l, bs)
    ensures Level(l, Swept(bs, ttl, at), key, at) == Level(l, bs, key, at) && Within(l, Swept(bs, ttl, at))
  {
    hide Refilled, Drip;
    if key in bs && Stale(bs[key], ttl, at) {
      StaleIsFull(l, ttl, bs[key], at);
    }
  }

  /** The account of the sweeping limiter, whatever the clock does. */
  lemma {:induction false} LazySpentAndLeft(l: Limit, ttl: real, rs: seq<Request>, key: string, i: nat, j: nat)
    requires l.refill >= 0.0 && ttl >= 0.0 && Drip(l, ttl) >= l.capacity as real && i < j <= |rs|
    ensures LazyGranted(l, ttl, rs, key, i, j) as real + Level(l, Lazy(l, ttl, rs[..j]), key, rs[j - 1].at)
      <= l.capacity as real + Drip(l, Rise(Times(rs), i, j))
    decreases j
  {
    hide Level, Taken, Grants, Within, Drip, Upward, Swept, Times;
    var r := rs[j - 1];
    var before := Lazy(l, ttl, rs[..j - 1]);
    assert rs[..j][..j - 1] == rs[..j - 1];
    LazyIsWithin(l, ttl, rs[..j - 1]);
    SweepKeepsLevel(l, ttl, before, key, r.at);
    TakingLowersLevel(l, Swept(before, ttl, r.at), r, key);
    if i == j - 1 {
      LevelGrowsSlowly(l, before, key, r.at, r.at);
      DripIsNonNegative(l, 0.0);
    } else {
      LazySpentAndLeft(l, ttl, rs, key, i, j - 1);
      LevelGrowsSlowly(l, before, key, rs[j - 2].at, r.at);
      DripOfSum(l, Rise(Times(rs), i, j - 1), Upward(rs[j - 2].at, r.at));
    }
  }

  /**
   The bound for every clock holds of the limiter as it is, with its sweep, when an idle bucket
   fills within the time to live.
   */
  lemma LazyEveryClockBound(l: Limit, ttl: real, rs: seq<Request>, key: string, i: nat, j: nat)
    requires l.refill >= 0.0 && ttl >= 0.0 && Drip(l, ttl) >= l.capacity as real && i < j <= |rs|
    ensures LazyGranted(l, ttl, rs, key, i, j) as real <= l.capacity as real + l.refill * Rise(Times(rs), i, j)
  {
    hide LazyGranted, Level, Lazy, Within, Rise, Times;
    LazySpentAndLeft(l, ttl, rs, key, i, j);
    LazyIsWithin(l, ttl, rs[..j]);
    LevelGrowsSlowly(l, Lazy(l, ttl, rs[..j]), key, rs[j - 1].at, rs[j - 1].at);
  }

  /** And so does the bound from end to end, in any window in which the clock is not set back. */
  lemma LazyWindowBound(l: Limit, ttl: real, rs: seq<Request>, key: string, i: nat, j: nat)
    requires l.refill >= 0.0 && ttl >= 0.0 && Drip(l, ttl) >= l.capacity as real
    requires i < j <= |rs| && Rising(Times(rs), i, j)
    ensures LazyGranted(l, ttl, rs, key, i, j) as real <= l.capacity as real + l.refill * (rs[j - 1].at - rs[i].at)
  {
    hide LazyGranted, Rise;
    LazyEveryClockBound(l, ttl, rs, key, i, j);
    RiseIsWayUp(Times(rs), i, j);
  }

  /** No reading is further than this from zero. */
  function Furthest(ts: seq<real>): (r: real)
    ensures r >= 0.0 && forall k :: 0 <= k < |ts| ==> -r <= ts[k] <= r
  {
    if ts == [] then 0.0 else
      var r := Furthest(ts[..|ts| - 1]);
      var t := ts[|ts| - 1];
      if t > r then t else if -t > r then -t else r
  }

  /** With a time to live longer than the run nothing is ever swept. */
  lemma {:induction false} LongLifeKeepsAll(l: Limit, ttl: real, rs: seq<Request>, far: real)
    requires forall k :: 0 <= k < |rs| ==> -far <= rs[k].at <= far
    requires ttl >= 2.0 * far
    ensures Lazy(l, ttl, rs) == Kept(l, rs)
    ensures forall k :: k in Kept(l, rs) ==> -far <= Kept(l, rs)[k].last <= far
  {
    hide Grants;
    if rs != [] {
      var last := rs[|rs| - 1];
      var before := Kept(l, rs[..|rs| - 1]);
      LongLifeKeepsAll(l, ttl, rs[..|rs| - 1], far);
      assert Swept(before, ttl, last.at) == before;
      RefilledLast(l, before, last.key, last.at);
    }
  }

  lemma {:induction false} LongLifeGrantsSame(l: Limit, ttl: real, rs: seq<Request>, far: real, key: string, i: nat, j: nat)
    requires forall k :: 0 <= k < |rs| ==> -far <= rs[k].at <= far
    requires ttl >= 2.0 * far && i <= j <= |rs|
    ensures LazyGranted(l, ttl, rs, key, i, j) == Granted(l, rs, key, i, j)
    decreases j
  {
    hide Grants, Kept, Lazy;
    if i < j {
      var r := rs[j - 1];
      LongLifeGrantsSame(l, ttl, rs, far, key, i, j - 1);
      LongLifeKeepsAll(l, ttl, rs[..j - 1], far);
      assert Swept(Kept(l, rs[..j - 1]), ttl, r.at) == Kept(l, rs[..j - 1]);
    }
  }

  /** The bound for every limit whose bucket fills within its time to live, and every run of the sweeping limiter. */
  ghost predicate LazyBoundHolds(ts: seq<real>, i: nat, j: nat)
    requires i < j <= |ts|
  {
    forall l: Limit, ttl: real, rs: seq<Request>, key: string ::
      l.refill >= 0.0 && ttl >= 0.0 && Drip(l, ttl) >= l.capacity as real && Times(rs) == ts ==>
        LazyGranted(l, ttl, rs, key, i, j) as real <= l.capacity as real + l.refill * (ts[j - 1] - ts[i])
  }

  lemma LongEnough(l: Limit, far: real) returns (ttl: real)
    requires l.refill > 0.0 && far >= 0.0
    ensures ttl >= 2.0 * far && Drip(l, ttl) >= l.capacity as real
  {
    var full := l.capacity as real / l.refill;
    assert Drip(l, full) == l.capacity as real;
    ttl := if full > 2.0 * far then full else 2.0 * far;
    DripGrows(l, full, ttl);
  }

  /** The sweep does not move the boundary: the bound holds exactly in the windows without a step back. */
  lemma LazyWindowBoundIff(ts: seq<real>, i: nat, j: nat)
    requires i < j <= |ts|
    ensures LazyBoundHolds(ts, i, j) <==> Rising(ts, i, j)
  {
    hide Granted, LazyGranted, Rising, Drip;
    if Rising(ts, i, j) {
      forall l: Limit, ttl: real, rs: seq<Request>, key: string
        | l.refill >= 0.0 && ttl >= 0.0 && Drip(l, ttl) >= l.capacity as real && Times(rs) == ts
        ensures LazyGranted(l, ttl, rs, key, i, j) as real <= l.capacity as real + l.refill * (ts[j - 1] - ts[i])
      {
        LazyWindowBound(l, ttl, rs, key, i, j);
      }
    } else {
      var l, rs := SetBackRefunds(ts, i, j);
      var ttl := LongEnough(l, Furthest(ts));
      LongLifeGrantsSame(l, ttl, rs, Furthest(ts), "k", i, j);
    }
  }

  /** A clock that is set back and forth refunds the burst: the touch time follows it back. */
  lemma RewoundClockRefunds() returns (l: Limit, rs: seq<Request>)
    ensures l.refill >= 0.0 && |rs| == 3 && !Monotone(rs)
    ensures Granted(l, rs, "k", 0, 3) as real > l.capacity as real + l.refill * (rs[2].at - rs[0].at)
  {
    hide Kept, Granted;
    l := Limit(1, 1.0);
    var a, b, c := Request("k", 1, 10.0), Request("k", 1, 0.0), Request("k", 1, 10.0);
    rs := [a, b, c];
    assert rs[0].at > rs[1].at;
    KeptStep(l, rs, 0);
    assert Kept(l, rs[..1]) == map["k" := Bucket(0.0, 10.0)];
    KeptStep(l, rs, 1);
    assert Refilled(l, Bucket(0.0, 10.0), 0.0) == Bucket(0.0, 0.0);
    assert Kept(l, rs[..2]) == map["k" := Bucket(0.0, 0.0)];
    assert Refilled(l, Bucket(0.0, 0.0), 10.0) == Bucket(1.0, 10.0);
    NothingGranted(l, rs, "k", 0);
    GrantedLast(l, rs, "k", 0, 1);
    GrantedLast(l, rs, "k", 0, 2);
    GrantedLast(l, rs, "k", 0, 3);
  }

  lemma KeptStep(l: Limit, rs: seq<Request>, i: nat)
    requires i < |rs|
    ensures Kept(l, rs[..i + 1]) == Taken(l, Kept(l, rs[..i]), rs[i]) && (i == 0 ==> Kept(l, rs[..i]) == map[])
  {
    hide Taken;
    assert rs[..i + 1][..i] == rs[..i];
  }
}
