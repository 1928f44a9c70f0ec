/** The per-IP token bucket in front of the enrollment server, with its sweep of stale buckets.
    Time and tokens are reals; the clock is an input that never goes back. */
module RateLimit {

  type Ip = string

  const SweepSize: nat := 5000
  const StaleAfter: real := 300.0

  datatype Config = Config(capacity: real, rate: real)

  /** The configuration with the defaults for missing or non-positive values. */
  function Effective(c: Config): (r: Config)
    ensures r.capacity > 0.0 && r.rate > 0.0
  {
    Config(if c.capacity <= 0.0 then 10.0 else c.capacity, if c.rate <= 0.0 then 0.1 else c.rate)
  }

  const Strict: Config := Config(10.0, 0.1)
  const Api: Config := Config(120.0, 20.0)

  /** An empty bucket is full again no later than it goes stale. */
  predicate RefillsInTime(c: Config) {
    IsPositive(c) && Gain(c, StaleAfter) >= c.capacity
  }

  predicate IsPositive(c: Config) {
    c.capacity > 0.0 && c.rate > 0.0
  }

  datatype Slot = Slot(tokens: real, lastFill: real)

  function Min(a: real, b: real): (r: real) {
    if a <= b then a else b
  }

  /** The tokens refilled in `elapsed` seconds. */
  function Gain(c: Config, elapsed: real): (r: real) {
    elapsed * c.rate
  }

  /** The tokens a bucket holds at `now`. */
  function Filled(c: Config, b: Slot, now: real): (r: real) {
    Min(c.capacity, b.tokens + Gain(c, now - b.lastFill))
  }

  /** The tokens an address holds at `now`; an unknown one has a full bucket. */
  function Level(c: Config, m: map<Ip, Slot>, ip: Ip, now: real): (r: real) {
    if ip in m then Filled(c, m[ip], now) else c.capacity
  }

  predicate Admits(c: Config, m: map<Ip, Slot>, ip: Ip, now: real) {
    Level(c, m, ip, now) >= 1.0
  }

  /** One request against the map, without the sweep. */
  function Ask(c: Config, m: map<Ip, Slot>, ip: Ip, now: real): (m': map<Ip, Slot>) {
    var level := Level(c, m, ip, now);
    m[ip := Slot(if level >= 1.0 then level - 1.0 else level, now)]
  }

  function Swept(m: map<Ip, Slot>, now: real): (m': map<Ip, Slot>) {
    if |m| > SweepSize then map k | k in m && !(m[k].lastFill < now - StaleAfter) :: m[k] else m
  }

  datatype Req = Req(ip: Ip, at: real)

  ghost predicate Ordered(trace: seq<Req>) {
    forall i, j :: 0 <= i <= j < |trace| ==> trace[i].at <= trace[j].at
  }

  /** The buckets after the first `k` requests: as the server keeps them, and without sweeping. */
  function Kept(c: Config, trace: seq<Req>, k: nat): (m: map<Ip, Slot>)
    requires k <= |trace|
  {
    if k == 0 then map[]
    else
      var r := trace[k - 1];
      Ask(c, Swept(Kept(c, trace, k - 1), r.at), r.ip, r.at)
  }

  function Plain(c: Config, trace: seq<Req>, k: nat): (m: map<Ip, Slot>)
    requires k <= |trace|
  {
    if k == 0 then map[] else Ask(c, Plain(c, trace, k - 1), trace[k - 1].ip, trace[k - 1].at)
  }

  /** The decision on request `k`. */
  predicate Allowed(c: Config, trace: seq<Req>, k: nat)
    requires k < |trace|
  {
    Admits(c, Swept(Kept(c, trace, k), trace[k].at), trace[k].ip, trace[k].at)
  }

  predicate PlainlyAllowed(c: Config, trace: seq<Req>, k: nat)
    requires k < |trace|
  {
    Admits(c, Plain(c, trace, k), trace[k].ip, trace[k].at)
  }

  // ----- the sweep is invisible -----

  /** A bucket that is full again at `now`. */
  ghost predicate FullAgain(c: Config, b: Slot, now: real) {
    b.tokens + Gain(c, now - b.lastFill) >= c.capacity
  }

  ghost predicate SlotOk(c: Config, b: Slot, now: real) {
    0.0 <= b.tokens <= c.capacity && b.lastFill <= now
  }

  /** The kept map is the plain one without some buckets that are full again. */
  ghost predicate Hides(c: Config, kept: map<Ip, Slot>, plain: map<Ip, Slot>, now: real) {
    && (forall k :: k in kept ==> k in plain && plain[k] == kept[k])
    && (forall k :: k in plain && k !in kept ==> FullAgain(c, plain[k], now))
    && (forall k :: k in plain ==> SlotOk(c, plain[k], now))
  }

  lemma GainGrows(c: Config, a: real, b: real)
    requires a <= b && c.rate > 0.0
    ensures Gain(c, a) <= Gain(c, b)
  {
    assert (b - a) * c.rate >= 0.0;
  }

  lemma FullStaysFull(c: Config, b: Slot, now: real, later: real)
    requires FullAgain(c, b, now) && now <= later && c.rate > 0.0
    ensures FullAgain(c, b, later)
  {
    GainGrows(c, now - b.lastFill, later - b.lastFill);
  }

  /** A stale bucket is full again, because a full refill takes no longer than it takes to go
      stale. */
  lemma StaleIsFull(c: Config, b: Slot, now: real)
    requires RefillsInTime(c)
    requires 0.0 <= b.tokens && b.lastFill < now - StaleAfter
    ensures FullAgain(c, b, now)
  {
    GainGrows(c, StaleAfter, now - b.lastFill);
  }

  lemma HidesLater(c: Config, kept: map<Ip, Slot>, plain: map<Ip, Slot>, now: real, later: real)
    requires Hides(c, kept, plain, now) && now <= later && c.rate > 0.0
    ensures Hides(c, kept, plain, later)
  {
    forall k | k in plain && k !in kept ensures FullAgain(c, plain[k], later) {
      FullStaysFull(c, plain[k], now, later);
    }
  }

  lemma HidesSwept(c: Config, kept: map<Ip, Slot>, plain: map<Ip, Slot>, now: real)
    requires RefillsInTime(c)
    requires Hides(c, kept, plain, now)
    ensures Hides(c, Swept(kept, now), plain, now)
  {
    forall k | k in plain && k !in Swept(kept, now) ensures FullAgain(c, plain[k], now) {
      if k in kept {
        StaleIsFull(c, plain[k], now);
      }
    }
  }

  lemma HidesSameLevel(c: Config, kept: map<Ip, Slot>, plain: map<Ip, Slot>, ip: Ip, now: real)
    requires Hides(c, kept, plain, now) && c.capacity > 0.0 && c.rate > 0.0
    ensures Level(c, kept, ip, now) == Level(c, plain, ip, now)
    ensures 0.0 <= Level(c, plain, ip, now) <= c.capacity
  {
    if ip in plain {
      GainGrows(c, 0.0, now - plain[ip].lastFill);
    }
  }

  lemma HidesAsk(c: Config, kept: map<Ip, Slot>, plain: map<Ip, Slot>, ip: Ip, now: real)
    requires Hides(c, kept, plain, now) && c.capacity > 0.0 && c.rate > 0.0
    ensures Hides(c, Ask(c, kept, ip, now), Ask(c, plain, ip, now), now)
  {
    HidesSameLevel(c, kept, plain, ip, now);
  }

  lemma {:induction false} KeptHidesPlain(c: Config, trace: seq<Req>, k: nat, now: real)
    requires Ordered(trace) && k <= |trace|
    requires RefillsInTime(c)
    requires k > 0 ==> trace[k - 1].at <= now
    ensures Hides(c, Kept(c, trace, k), Plain(c, trace, k), now)
    decreases k
  {
    if k > 0 {
      var r := trace[k - 1];
      assert k > 1 ==> trace[k - 2].at <= r.at;
      KeptHidesPlain(c, trace, k - 1, r.at);
      HidesSwept(c, Kept(c, trace, k - 1), Plain(c, trace, k - 1), r.at);
      HidesAsk(c, Swept(Kept(c, trace, k - 1), r.at), Plain(c, trace, k - 1), r.ip, r.at);
      HidesLater(c, Kept(c, trace, k), Plain(c, trace, k), r.at, now);
    }
  }

  /** Without whole tokens nothing ever passes; otherwise stale buckets must be full. */
  predicate SweepsSafely(c: Config) {
    c.capacity < 1.0 || RefillsInTime(c)
  }

  /** Sweeping stale buckets changes no decision on any request trace, if nothing ever passes or an
      empty bucket refills before it goes stale. */
  lemma SweepIsInvisible(c: Config, trace: seq<Req>, k: nat)
    requires Ordered(trace) && k < |trace|
    requires SweepsSafely(c)
    ensures Allowed(c, trace, k) <==> PlainlyAllowed(c, trace, k)
  {
    if c.capacity >= 1.0 {
      var r := trace[k];
      assert k > 0 ==> trace[k - 1].at <= r.at;
      KeptHidesPlain(c, trace, k, r.at);
      HidesSwept(c, Kept(c, trace, k), Plain(c, trace, k), r.at);
      HidesSameLevel(c, Swept(Kept(c, trace, k), r.at), Plain(c, trace, k), r.ip, r.at);
    }
  }

  ghost predicate SweepInvisible(c: Config) {
    forall trace: seq<Req>, k :: Ordered(trace) && 0 <= k < |trace| ==>
      (Allowed(c, trace, k) <==> PlainlyAllowed(c, trace, k))
  }

  // ----- the rate bound -----

  /** Whether request `k` is one of `ip` that was let through, as a number. */
  function Paid(c: Config, trace: seq<Req>, ip: Ip, k: nat): (n: nat)
    requires k < |trace|
  {
    if trace[k].ip == ip && Allowed(c, trace, k) then 1 else 0
  }

  /** How many requests of `ip` among `i..j` were let through. */
  function Passed(c: Config, trace: seq<Req>, ip: Ip, i: nat, j: nat): (n: nat)
    requires i <= j <= |trace|
    decreases j
  {
    if i == j then 0
    else Passed(c, trace, ip, i, j - 1) + Paid(c, trace, ip, j - 1)
  }

  lemma LevelGrows(c: Config, m: map<Ip, Slot>, ip: Ip, now: real, later: real)
    requires c.rate > 0.0 && now <= later
    ensures Level(c, m, ip, later) <= Level(c, m, ip, now) + Gain(c, later - now)
    ensures Level(c, m, ip, later) <= c.capacity
  {
    if ip in m {
      GainGrows(c, now - m[ip].lastFill, later - m[ip].lastFill);
    } else {
      GainGrows(c, 0.0, later - now);
    }
  }

  /** Without the sweep a bucket never holds less than nothing or more than its capacity. */
  lemma {:induction false} LevelRange(c: Config, trace: seq<Req>, ip: Ip, k: nat, now: real)
    requires Ordered(trace) && k <= |trace| && IsPositive(c)
    requires k > 0 ==> trace[k - 1].at <= now
    ensures 0.0 <= Level(c, Plain(c, trace, k), ip, now) <= c.capacity
    decreases k
  {
    if ip in Plain(c, trace, k) {
      var r := trace[k - 1];
      assert k > 1 ==> trace[k - 2].at <= r.at;
      LevelRange(c, trace, ip, k - 1, r.at);
      if r.ip == ip {
        GainGrows(c, 0.0, now - r.at);
      } else {
        var b := Plain(c, trace, k - 1)[ip];
        GainGrows(c, r.at - b.lastFill, now - b.lastFill);
      }
    }
  }

  lemma AskPays(c: Config, m: map<Ip, Slot>, asking: Ip, ip: Ip, now: real)
    requires Level(c, m, asking, now) <= c.capacity
    ensures Level(c, Ask(c, m, asking, now), ip, now) ==
      Level(c, m, ip, now) - if asking == ip && Admits(c, m, asking, now) then 1.0 else 0.0
  {
    if asking == ip {
      var b := Ask(c, m, asking, now)[ip];
      assert now - b.lastFill == 0.0;
      assert Gain(c, now - b.lastFill) == Gain(c, 0.0);
    }
  }

  /** One request takes from the address's tokens what it lets through. */
  lemma RequestPays(c: Config, trace: seq<Req>, ip: Ip, k: nat)
    requires Ordered(trace) && k < |trace|
    requires IsPositive(c) && SweepInvisible(c)
    ensures Level(c, Plain(c, trace, k + 1), ip, trace[k].at) ==
      Level(c, Plain(c, trace, k), ip, trace[k].at) - Paid(c, trace, ip, k) as real
  {
    assert Allowed(c, trace, k) <==> PlainlyAllowed(c, trace, k);
    assert k > 0 ==> trace[k - 1].at <= trace[k].at;
    LevelRange(c, trace, trace[k].ip, k, trace[k].at);
    AskPays(c, Plain(c, trace, k), trace[k].ip, ip, trace[k].at);
  }

  /** Tokens are conserved: what passed plus what is left is at most what was there plus what
      was refilled. */
  lemma {:induction false} TokensConserved(c: Config, trace: seq<Req>, ip: Ip, i: nat, j: nat)
    requires Ordered(trace) && i < j <= |trace|
    requires IsPositive(c) && SweepInvisible(c)
    ensures Passed(c, trace, ip, i, j) as real + Level(c, Plain(c, trace, j), ip, trace[j - 1].at)
      <= c.capacity + Gain(c, trace[j - 1].at - trace[i].at)
    decreases j
  {
    var end := trace[j - 1].at;
    RequestPays(c, trace, ip, j - 1);
    var before := Level(c, Plain(c, trace, j - 1), ip, end);
    assert Passed(c, trace, ip, i, j) == Passed(c, trace, ip, i, j - 1) + Paid(c, trace, ip, j - 1);
    if j == i + 1 {
      assert i > 0 ==> trace[i - 1].at <= end;
      LevelRange(c, trace, ip, i, end);
      assert Gain(c, end - trace[i].at) == 0.0;
    } else {
      TokensConserved(c, trace, ip, i, j - 1);
      var mid := trace[j - 2].at;
      LevelGrows(c, Plain(c, trace, j - 1), ip, mid, end);
      Spans(c, trace[i].at, mid, end);
    }
  }

  lemma Spans(c: Config, a: real, b: real, d: real)
    ensures Gain(c, b - a) + Gain(c, d - b) == Gain(c, d - a)
  {
  }

  /** In any stretch of any request trace, one address is let through at most
      capacity + rate * duration times, sweeps included. */
  lemma RateIsBounded(c: Config, trace: seq<Req>, ip: Ip, i: nat, j: nat)
    requires Ordered(trace) && i < j <= |trace|
    requires IsPositive(c) && SweepInvisible(c)
    ensures Passed(c, trace, ip, i, j) as real <= c.capacity + Gain(c, trace[j - 1].at - trace[i].at)
  {
    TokensConserved(c, trace, ip, i, j);
    LevelRange(c, trace, ip, j, trace[j - 1].at);
  }

  ghost predicate RateBounded(c: Config) {
    forall trace: seq<Req>, ip, i, j :: Ordered(trace) && 0 <= i < j <= |trace| ==>
      Passed(c, trace, ip, i, j) as real <= c.capacity + Gain(c, trace[j - 1].at - trace[i].at)
  }

  // ----- the limiter refuses nothing it need not refuse -----

  /** A bucket that is not full at a later time was filled all along. */
  lemma NotFullYet(c: Config, m: map<Ip, Slot>, ip: Ip, now: real, later: real)
    requires IsPositive(c) && now <= later && Level(c, m, ip, later) < c.capacity
    ensures Level(c, m, ip, later) == Level(c, m, ip, now) + Gain(c, later - now)
  {
    if ip in m {
      GainGrows(c, now - m[ip].lastFill, later - m[ip].lastFill);
      Spans(c, m[ip].lastFill, now, later);
    }
  }

  /** The tokens an address holds are what is left of a full bucket since it was last full: there is a
      moment from which on nothing was cut off. */
  lemma {:induction false} LevelSince(c: Config, trace: seq<Req>, ip: Ip, k: nat, now: real) returns (i: nat)
    requires Ordered(trace) && k <= |trace| && IsPositive(c) && SweepInvisible(c)
    requires k > 0 ==> trace[k - 1].at <= now
    ensures i <= k
    ensures i == k ==> Level(c, Plain(c, trace, k), ip, now) == c.capacity
    ensures i < k ==>
      Level(c, Plain(c, trace, k), ip, now) ==
      c.capacity + Gain(c, now - trace[i].at) - Passed(c, trace, ip, i, k) as real
    decreases k
  {
    i := k;
    if Level(c, Plain(c, trace, k), ip, now) != c.capacity {
      LevelRange(c, trace, ip, k, now);
      var at := trace[k - 1].at;
      NotFullYet(c, Plain(c, trace, k), ip, at, now);
      RequestPays(c, trace, ip, k - 1);
      assert k > 1 ==> trace[k - 2].at <= at;
      i := LevelSince(c, trace, ip, k - 1, at);
      assert Passed(c, trace, ip, i, k) == Passed(c, trace, ip, i, k - 1) + Paid(c, trace, ip, k - 1);
      Spans(c, trace[i].at, at, now);
      assert Gain(c, 0.0) == 0.0;
    }
  }

  /** Request `k` would not exceed the rate bound over any stretch that ends with it. */
  ghost predicate HasRoom(c: Config, trace: seq<Req>, k: nat)
    requires k < |trace|
  {
    forall i :: 0 <= i <= k ==>
      Passed(c, trace, trace[k].ip, i, k) as real + 1.0 <= c.capacity + Gain(c, trace[k].at - trace[i].at)
  }

  /** A request is let through exactly if the address stays within capacity + rate * duration over every
      stretch that ends with it: the limiter keeps the bound and refuses nothing it need not refuse. */
  lemma AdmitsExactly(c: Config, trace: seq<Req>, k: nat)
    requires Ordered(trace) && k < |trace|
    requires IsPositive(c) && SweepInvisible(c)
    ensures Allowed(c, trace, k) <==> HasRoom(c, trace, k)
  {
    var ip, at := trace[k].ip, trace[k].at;
    if Allowed(c, trace, k) {
      forall i | 0 <= i <= k
        ensures Passed(c, trace, ip, i, k) as real + 1.0 <= c.capacity + Gain(c, at - trace[i].at)
      {
        RateIsBounded(c, trace, ip, i, k + 1);
        assert Passed(c, trace, ip, i, k + 1) == Passed(c, trace, ip, i, k) + Paid(c, trace, ip, k);
      }
    } else {
      assert !PlainlyAllowed(c, trace, k);
      assert k > 0 ==> trace[k - 1].at <= at;
      var i := LevelSince(c, trace, ip, k, at);
      assert Gain(c, 0.0) == 0.0;
      assert Passed(c, trace, ip, i, k) as real + 1.0 > c.capacity + Gain(c, at - trace[i].at);
    }
  }

  // ----- a limiter that sweeps too early breaks the bound -----

  const Victim: Ip := ""

  /** The address of the `j`-th bystander. */
  function Bystander(j: nat): (ip: Ip)
    ensures |ip| == j + 1
  {
    seq(j + 1, _ => 'b')
  }

  /** A trace that starts at time zero and ends by `now`: the buckets it leaves and how often the
      victim passed. */
  ghost predicate Leaves(c: Config, trace: seq<Req>, now: real, m: map<Ip, Slot>, passed: nat) {
    && Ordered(trace)
    && (trace != [] ==> trace[0].at == 0.0 && trace[|trace| - 1].at <= now)
    && Kept(c, trace, |trace|) == m
    && Passed(c, trace, Victim, 0, |trace|) == passed
  }

  lemma {:induction false} KeptOfPrefix(c: Config, trace: seq<Req>, r: Req, k: nat)
    requires k <= |trace|
    ensures Kept(c, trace + [r], k) == Kept(c, trace, k)
    decreases k
  {
    if k > 0 {
      KeptOfPrefix(c, trace, r, k - 1);
    }
  }

  lemma {:induction false} PassedOfPrefix(c: Config, trace: seq<Req>, r: Req, k: nat)
    requires k <= |trace|
    ensures Passed(c, trace + [r], Victim, 0, k) == Passed(c, trace, Victim, 0, k)
    decreases k
  {
    if k > 0 {
      PassedOfPrefix(c, trace, r, k - 1);
      KeptOfPrefix(c, trace, r, k - 1);
    }
  }

  /** One more request. */
  lemma Push(c: Config, trace: seq<Req>, now: real, m: map<Ip, Slot>, passed: nat, ip: Ip)
    requires Leaves(c, trace, now, m, passed)
    requires if trace == [] then now == 0.0 else now >= 0.0
    ensures Leaves(c, trace + [Req(ip, now)], now, Ask(c, Swept(m, now), ip, now),
                   passed + if ip == Victim && Admits(c, Swept(m, now), ip, now) then 1 else 0)
  {
    PushKept(c, trace, Req(ip, now), m);
    PushPassed(c, trace, Req(ip, now), m, passed);
    PushOrdered(trace, Req(ip, now));
  }

  lemma PushKept(c: Config, trace: seq<Req>, r: Req, m: map<Ip, Slot>)
    requires Kept(c, trace, |trace|) == m
    ensures Kept(c, trace + [r], |trace|) == m
    ensures Kept(c, trace + [r], |trace| + 1) == Ask(c, Swept(m, r.at), r.ip, r.at)
  {
    KeptOfPrefix(c, trace, r, |trace|);
    assert (trace + [r])[|trace|] == r;
  }

  lemma PushPassed(c: Config, trace: seq<Req>, r: Req, m: map<Ip, Slot>, passed: nat)
    requires Kept(c, trace, |trace|) == m && Passed(c, trace, Victim, 0, |trace|) == passed
    ensures Passed(c, trace + [r], Victim, 0, |trace| + 1) ==
      passed + if r.ip == Victim && Admits(c, Swept(m, r.at), r.ip, r.at) then 1 else 0
  {
    PushKept(c, trace, r, m);
    PassedOfPrefix(c, trace, r, |trace|);
    assert (trace + [r])[|trace|] == r;
  }

  lemma PushOrdered(trace: seq<Req>, r: Req)
    requires Ordered(trace) && (trace != [] ==> trace[|trace| - 1].at <= r.at)
    ensures Ordered(trace + [r])
  {
  }

  /** What the victim holds when it asks at `now`, and the buckets after that. */
  function Held(c: Config, m: map<Ip, Slot>, now: real): (r: real) {
    Level(c, Swept(m, now), Victim, now)
  }

  function Asked(c: Config, m: map<Ip, Slot>, now: real): (m': map<Ip, Slot>) {
    Ask(c, Swept(m, now), Victim, now)
  }

  /** A passed request costs one token. */
  lemma AskedCosts(c: Config, m: map<Ip, Slot>, now: real)
    requires Held(c, m, now) >= 1.0
    ensures Held(c, Asked(c, m, now), now) == Held(c, m, now) - 1.0
    ensures Victim in Asked(c, m, now) && Asked(c, m, now)[Victim] == Slot(Held(c, m, now) - 1.0, now)
    ensures m.Keys <= {Victim} ==> Asked(c, m, now).Keys == {Victim}
  {
    assert Gain(c, now - now) == 0.0;
  }

  /** The victim asks `n` times at once, having at least that many tokens. */
  lemma {:induction false} Drain(c: Config, trace: seq<Req>, now: real, m: map<Ip, Slot>, passed: nat, n: nat)
    returns (trace': seq<Req>, m': map<Ip, Slot>)
    requires Leaves(c, trace, now, m, passed)
    requires if trace == [] then now == 0.0 else now >= 0.0
    requires 0 < n && n as real <= Held(c, m, now)
    ensures trace' != [] && Leaves(c, trace', now, m', passed + n)
    ensures Victim in m' && m'[Victim] == Slot(Held(c, m, now) - n as real, now)
    ensures m.Keys <= {Victim} ==> m'.Keys == {Victim}
    decreases n
  {
    Push(c, trace, now, m, passed, Victim);
    AskedCosts(c, m, now);
    trace', m' := trace + [Req(Victim, now)], Asked(c, m, now);
    if n > 1 {
      trace', m' := Drain(c, trace', now, m', passed + 1, n - 1);
    }
  }

  /** The first `j` bystanders ask at `now`, none of which triggers a sweep. */
  lemma {:induction false} Crowd(c: Config, trace: seq<Req>, now: real, b: Slot, passed: nat, j: nat)
    returns (trace': seq<Req>, m': map<Ip, Slot>)
    requires trace != [] && now >= 0.0 && Leaves(c, trace, now, map[Victim := b], passed) && j <= SweepSize
    ensures trace' != [] && Leaves(c, trace', now, m', passed)
    ensures |m'| == j + 1 && Victim in m' && m'[Victim] == b
    ensures forall ip :: ip in m' ==> |ip| <= j
    decreases j
  {
    trace', m' := trace, map[Victim := b];
    if j > 0 {
      var t, m := Crowd(c, trace, now, b, passed, j - 1);
      Push(c, t, now, m, passed, Bystander(j - 1));
      trace', m' := t + [Req(Bystander(j - 1), now)], Ask(c, m, Bystander(j - 1), now);
      assert Bystander(j - 1) !in m;
    }
  }

  lemma RefillTime(c: Config, tokens: real)
    requires c.rate > 0.0
    ensures Gain(c, tokens / c.rate) == tokens
  {
  }

  /** The bystanders' last request sweeps the victim's stale bucket away. */
  lemma Forget(c: Config, trace: seq<Req>, now: real, b: Slot, passed: nat)
    returns (trace': seq<Req>, m': map<Ip, Slot>)
    requires trace != [] && now >= 0.0 && Leaves(c, trace, now, map[Victim := b], passed)
    requires b.lastFill < now - StaleAfter
    ensures trace' != [] && Leaves(c, trace', now, m', passed) && Victim !in m'
  {
    var t, m := Crowd(c, trace, now, b, passed, SweepSize);
    Push(c, t, now, m, passed, Bystander(SweepSize));
    trace' := t + [Req(Bystander(SweepSize), now)];
    m' := Ask(c, Swept(m, now), Bystander(SweepSize), now);
    assert Victim !in Swept(m, now);
  }

  /** What is missing to a whole token once the whole ones are spent. */
  function Missing(c: Config): (r: real)
    ensures 0.0 < r <= 1.0
  {
    1.0 - (c.capacity - c.capacity.Floor as real)
  }

  /** When a bucket drained of its whole tokens at `now` holds exactly one again. */
  function NextWhole(c: Config, now: real): (r: real)
    requires c.rate > 0.0
  {
    now + Missing(c) / c.rate
  }

  lemma Later(c: Config, now: real)
    requires c.rate > 0.0
    ensures NextWhole(c, now) >= now
    ensures Gain(c, NextWhole(c, now) - now) == Missing(c)
  {
    RefillTime(c, Missing(c));
    assert Missing(c) / c.rate >= 0.0;
  }

  lemma WholeAgain(c: Config, m: map<Ip, Slot>, now: real)
    requires IsPositive(c) && c.capacity >= 1.0
    requires Victim in m && m[Victim] == Slot(1.0 - Missing(c), now)
    ensures Held(c, m, NextWhole(c, now)) >= 1.0
    ensures m.Keys == {Victim} ==> Asked(c, m, NextWhole(c, now)) == map[Victim := Slot(0.0, NextWhole(c, now))]
  {
    Later(c, now);
  }

  /** The victim spends all whole tokens at `now` and one more when the next is whole. */
  lemma Spree(c: Config, trace: seq<Req>, now: real, m: map<Ip, Slot>, passed: nat)
    returns (trace': seq<Req>, m': map<Ip, Slot>)
    requires IsPositive(c) && c.capacity >= 1.0 && Leaves(c, trace, now, m, passed) && Victim !in m
    requires if trace == [] then now == 0.0 else now >= 0.0
    ensures Leaves(c, trace', NextWhole(c, now), m', passed + c.capacity.Floor + 1) && trace' != []
    ensures trace'[|trace'| - 1].at == NextWhole(c, now) >= now
    ensures trace == [] ==> m' == map[Victim := Slot(0.0, NextWhole(c, now))]
  {
    var later := NextWhole(c, now);
    assert Held(c, m, now) == c.capacity;
    var t, m1 := Drain(c, trace, now, m, passed, c.capacity.Floor);
    Later(c, now);
    WholeAgain(c, m1, now);
    Push(c, t, later, m1, passed + c.capacity.Floor, Victim);
    trace', m' := t + [Req(Victim, later)], Asked(c, m1, later);
  }

  /** If an empty bucket goes stale before it is full, some trace lets one address through more
      often than capacity + rate * duration. */
  lemma EarlySweepBreaksTheBound(c: Config) returns (trace: seq<Req>)
    requires IsPositive(c) && !SweepsSafely(c)
    ensures Ordered(trace) && trace != []
    ensures Passed(c, trace, Victim, 0, |trace|) as real >
      c.capacity + Gain(c, trace[|trace| - 1].at - trace[0].at)
  {
    var t1, n := NextWhole(c, 0.0), c.capacity.Floor;
    var t0, m0 := Spree(c, [], 0.0, map[], 0);
    PauseIsStale(c);
    var t, m := Forget(c, t0, t1 + Pause(c), Slot(0.0, t1), n + 1);
    trace, m := Spree(c, t, t1 + Pause(c), m, n + 1);
    SpreesGain(c);
  }

  /** A pause after which an empty bucket is stale and not yet full. */
  function Pause(c: Config): (r: real)
    requires c.rate > 0.0
  {
    StaleAfter + ((c.capacity - Gain(c, StaleAfter)) / 2.0) / c.rate
  }

  lemma PauseIsStale(c: Config)
    requires IsPositive(c) && Gain(c, StaleAfter) < c.capacity
    ensures Pause(c) > StaleAfter && Gain(c, Pause(c)) < c.capacity
  {
    var spare := (c.capacity - Gain(c, StaleAfter)) / 2.0;
    RefillTime(c, spare);
    assert spare / c.rate > 0.0;
    Spans(c, 0.0, StaleAfter, Pause(c));
  }

  /** What is refilled over two sprees with a pause between them. */
  lemma SpreesGain(c: Config)
    requires IsPositive(c)
    ensures Gain(c, NextWhole(c, NextWhole(c, 0.0) + Pause(c))) == 2.0 * Missing(c) + Gain(c, Pause(c))
  {
    var wait := Missing(c) / c.rate;
    RefillTime(c, Missing(c));
    Spans(c, 0.0, wait, wait + Pause(c));
    Spans(c, 0.0, wait + Pause(c), wait + Pause(c) + wait);
  }

  /** Three statements are the same for every limiter: sweeping never changes a decision, the rate
      bound holds on every trace, and the configuration sweeps safely. */
  lemma SweepsSafelyIff(c: Config)
    requires IsPositive(c)
    ensures SweepInvisible(c) <==> SweepsSafely(c)
    ensures RateBounded(c) <==> SweepsSafely(c)
  {
    if SweepsSafely(c) {
      forall trace: seq<Req>, k | Ordered(trace) && 0 <= k < |trace|
        ensures Allowed(c, trace, k) <==> PlainlyAllowed(c, trace, k)
      {
        SweepIsInvisible(c, trace, k);
      }
    }
    if SweepInvisible(c) {
      forall trace: seq<Req>, ip, i, j | Ordered(trace) && 0 <= i < j <= |trace|
        ensures Passed(c, trace, ip, i, j) as real <= c.capacity + Gain(c, trace[j - 1].at - trace[i].at)
      {
        RateIsBounded(c, trace, ip, i, j);
      }
    }
    if !SweepsSafely(c) {
      var trace := EarlySweepBreaksTheBound(c);
      assert !RateBounded(c);
    }
  }

  /** Both limiters the server sets up refill before a bucket goes stale. */
  lemma ConfiguredLimitersRefillInTime(c: Config)
    requires c == Strict || c == Api
    ensures Effective(c) == c && RefillsInTime(c) && SweepsSafely(c)
  {
  }

  // ----- the limiter as the server runs it -----

  class Limiter {
    const config: Config
    var buckets: map<Ip, Slot>

    constructor (c: Config)
      ensures config.capacity == (if c.capacity > 0.0 then c.capacity else 10.0)
      ensures config.rate == (if c.rate > 0.0 then c.rate else 0.1)
      ensures config == Effective(c) && IsPositive(config) && buckets == map[]
    {
      config := Effective(c);
      buckets := map[];
    }

    method Sweep(now: real)
      modifies this
      ensures buckets == Swept(old(buckets), now)
    {
      if |buckets| <= SweepSize {
        return;
      }
      var cutoff := now - StaleAfter;
      var todo := buckets.Keys;
      ghost var was := buckets;
      while todo != {}
        invariant todo <= was.Keys
        invariant buckets == map k | k in was && (k in todo || !(was[k].lastFill < cutoff)) :: was[k]
        decreases todo
      {
        var k :| k in todo;
        if buckets[k].lastFill < cutoff {
          buckets := buckets - {k};
        }
        todo := todo - {k};
      }
    }

    method Handle(ip: Ip, now: real) returns (ok: bool)
      modifies this
      ensures var m := Swept(old(buckets), now);
        ok == Admits(config, m, ip, now) && buckets == Ask(config, m, ip, now)
    {
      Sweep(now);
      var b := Slot(config.capacity, now);
      if ip in buckets {
        b := buckets[ip];
      }
      assert Gain(config, 0.0) == 0.0;
      var tokens := b.tokens + Gain(config, now - b.lastFill);
      if tokens > config.capacity {
        tokens := config.capacity;
      }
      ok := !(tokens < 1.0);
      if ok {
        tokens := tokens - 1.0;
      }
      buckets := buckets[ip := Slot(tokens, now)];
    }

    /** A whole trace: the decisions are those of `Allowed`. */
    method HandleAll(trace: seq<Req>) returns (decisions: seq<bool>)
      requires buckets == map[]
      modifies this
      ensures |decisions| == |trace|
      ensures forall k :: 0 <= k < |trace| ==> decisions[k] == Allowed(config, trace, k)
      ensures Ordered(trace) && IsPositive(config) && SweepsSafely(config) ==>
        forall k :: 0 <= k < |trace| ==> (decisions[k] <==> HasRoom(config, trace, k))
    {
      decisions := [];
      for k := 0 to |trace|
        invariant buckets == Kept(config, trace, k)
        invariant |decisions| == k
        invariant forall i :: 0 <= i < k ==> decisions[i] == Allowed(config, trace, i)
      {
        var ok := Handle(trace[k].ip, trace[k].at);
        decisions := decisions + [ok];
      }
      if Ordered(trace) && IsPositive(config) && SweepsSafely(config) {
        SweepsSafelyIff(config);
        forall k | 0 <= k < |trace| ensures Allowed(config, trace, k) <==> HasRoom(config, trace, k) {
          AdmitsExactly(config, trace, k);
        }
      }
    }
  }
}
