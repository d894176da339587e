/** The per-consumer limiter of the HTTP layer, and when forgetting idle buckets can be observed. */
module PrunedLimiter {
  import opened Metering

  /** Idle longer than this many seconds, a bucket is forgotten. */
  const IDLE_LIMIT: real := 600.0

  /** Readings are in seconds. */
  datatype Bucket = Bucket(tokens: real, lastFill: real)

  datatype Config = Config(rate: real, capacity: real)

  type Buckets = map<string, Bucket>

  function Refilled(cfg: Config, b: Bucket, now: real): real {
    var level := b.tokens + Gain(cfg.rate, now - b.lastFill);
    if level > cfg.capacity then cfg.capacity else level
  }

  /** What a key may spend at `now`; an unknown key has a full bucket. */
  function Level(cfg: Config, m: Buckets, key: string, now: real): real {
    if key in m then Refilled(cfg, m[key], now) else cfg.capacity
  }

  /** Waiting earns the rate a second, up to the capacity; an unknown key may spend the whole of it. */
  lemma LevelInNumbers(cfg: Config, m: Buckets, key: string, now: real)
    ensures key !in m ==> Level(cfg, m, key, now) == cfg.capacity
    ensures key in m ==>
              var earned := m[key].tokens + (now - m[key].lastFill) * cfg.rate;
              Level(cfg, m, key, now) == if earned <= cfg.capacity then earned else cfg.capacity
  {
  }

  function Spent(level: real, now: real): Bucket {
    Bucket(if level < 1.0 then level else level - 1.0, now)
  }

  function Kept(m: Buckets, now: real): Buckets {
    map k | k in m && !(now - m[k].lastFill > IDLE_LIMIT) :: m[k]
  }

  class RateLimiter {
    const cfg: Config
    var buckets: Buckets

    constructor (rate: real, capacity: real)
      ensures cfg == Config(rate, capacity) && buckets == map[]
    {
      cfg, buckets := Config(rate, capacity), map[];
    }

    method Allow(key: string, now: real) returns (allowed: bool)
      modifies this
      ensures allowed == (Level(cfg, old(buckets), key, now) >= 1.0)
      ensures buckets == old(buckets)[key := Spent(Level(cfg, old(buckets), key, now), now)]
      ensures buckets[key].tokens == Level(cfg, old(buckets), key, now) - (if allowed then 1.0 else 0.0)
    {
      if key !in buckets {
        buckets := buckets[key := Bucket(cfg.capacity, now)];
      }
      var b := buckets[key];
      var elapsed := now - b.lastFill;
      var tokens := b.tokens + elapsed * cfg.rate;
      assert tokens == b.tokens + Gain(cfg.rate, elapsed);
      GainSign(cfg.rate, elapsed);
      if tokens > cfg.capacity {
        tokens := cfg.capacity;
      }
      assert tokens == Level(cfg, old(buckets), key, now);
      if tokens < 1.0 {
        buckets := buckets[key := Bucket(tokens, now)];
        return false;
      }
      buckets := buckets[key := Bucket(tokens - 1.0, now)];
      return true;
    }

    method Cleanup(now: real)
      modifies this
      ensures buckets == Kept(old(buckets), now)
      ensures forall k :: k in buckets <==> k in old(buckets) && now - old(buckets)[k].lastFill <= 600.0
    {
      var keys := buckets.Keys;
      while keys != {}
        invariant keys <= old(buckets).Keys
        invariant buckets == map k | k in old(buckets) && (k in keys || !(now - old(buckets)[k].lastFill > IDLE_LIMIT))
                             :: old(buckets)[k]
        decreases keys
      {
        var k :| k in keys;
        keys := keys - {k};
        if now - buckets[k].lastFill > IDLE_LIMIT {
          buckets := buckets - {k};
        }
      }
    }
  }

  // ----- Runs, with and without cleanups -----

  datatype Event = Ask(key: string, now: real) | Clean(now: real)

  /** One event; a limiter that does not prune ignores cleanups. */
  function Next(cfg: Config, prunes: bool, m: Buckets, e: Event): Buckets {
    match e
    case Ask(key, now) => m[key := Spent(Level(cfg, m, key, now), now)]
    case Clean(now) => if prunes then Kept(m, now) else m
  }

  /** Whether the event is refused; a cleanup never is. */
  predicate Refused(cfg: Config, m: Buckets, e: Event) {
    e.Ask? && Level(cfg, m, e.key, e.now) < 1.0
  }

  function End(cfg: Config, prunes: bool, m: Buckets, es: seq<Event>): Buckets
    decreases |es|
  {
    if es == [] then m else End(cfg, prunes, Next(cfg, prunes, m, es[0]), es[1..])
  }

  function Refusals(cfg: Config, prunes: bool, m: Buckets, es: seq<Event>): (rs: seq<bool>)
    ensures |rs| == |es|
    decreases |es|
  {
    if es == [] then [] else [Refused(cfg, m, es[0])] + Refusals(cfg, prunes, Next(cfg, prunes, m, es[0]), es[1..])
  }

  predicate Ordered(es: seq<Event>, from: real)
    decreases |es|
  {
    es == [] || (from <= es[0].now && Ordered(es[1..], es[0].now))
  }

  /** Cleanups change no answer of any run from an empty limiter. */
  ghost predicate PruningIsInvisible(cfg: Config) {
    forall es: seq<Event>, from: real | Ordered(es, from) ::
      Refusals(cfg, true, map[], es) == Refusals(cfg, false, map[], es)
  }

  // ----- Sufficient -----

  lemma {:induction false} TooSmallRefusesAll(cfg: Config, prunes: bool, m: Buckets, es: seq<Event>)
    requires cfg.capacity < 1.0
    ensures forall i | 0 <= i < |es| :: Refusals(cfg, prunes, m, es)[i] == es[i].Ask?
    decreases |es|
  {
    if es != [] {
      TooSmallRefusesAll(cfg, prunes, Next(cfg, prunes, m, es[0]), es[1..]);
    }
  }

  /** The pruned limiter has the same buckets but for some idle ones; none is overdrawn and none is from the future. */
  ghost predicate Covers(pruned: Buckets, full: Buckets, now: real) {
    && (forall k | k in full :: full[k].tokens >= 0.0 && full[k].lastFill <= now)
    && (forall k | k in pruned :: k in full && full[k] == pruned[k])
    && (forall k | k in full && k !in pruned :: now - full[k].lastFill > IDLE_LIMIT)
  }

  lemma IdleIsFull(cfg: Config, b: Bucket, now: real)
    requires 0.0 <= cfg.capacity <= Gain(cfg.rate, IDLE_LIMIT) && b.tokens >= 0.0 && now - b.lastFill > IDLE_LIMIT
    ensures Refilled(cfg, b, now) == cfg.capacity
  {
    var idle := now - b.lastFill - IDLE_LIMIT;
    assert cfg.rate >= 0.0;
    GainAdds(cfg.rate, IDLE_LIMIT, idle);
    GainSign(cfg.rate, idle);
    assert IDLE_LIMIT + idle == now - b.lastFill;
  }

  lemma LevelIsNonNegative(cfg: Config, b: Bucket, now: real)
    requires cfg.capacity >= 0.0 && cfg.rate >= 0.0 && b.tokens >= 0.0 && b.lastFill <= now
    ensures Refilled(cfg, b, now) >= 0.0
  {
    GainSign(cfg.rate, now - b.lastFill);
  }

  lemma CoversStep(cfg: Config, pruned: Buckets, full: Buckets, e: Event, from: real)
    requires 0.0 <= cfg.capacity <= Gain(cfg.rate, IDLE_LIMIT) && Covers(pruned, full, from) && from <= e.now
    ensures Refused(cfg, pruned, e) == Refused(cfg, full, e)
    ensures Covers(Next(cfg, true, pruned, e), Next(cfg, false, full, e), e.now)
  {
    match e
    case Ask(key, now) =>
      if key in full {
        LevelIsNonNegative(cfg, full[key], now);
        if key !in pruned {
          IdleIsFull(cfg, full[key], now);
        }
      }
      assert Level(cfg, pruned, key, now) == Level(cfg, full, key, now) >= 0.0;
    case Clean(_) =>
  }

  lemma {:induction false} CoveredRuns(cfg: Config, pruned: Buckets, full: Buckets, es: seq<Event>, from: real)
    requires 0.0 <= cfg.capacity <= Gain(cfg.rate, IDLE_LIMIT) && Covers(pruned, full, from) && Ordered(es, from)
    ensures Refusals(cfg, true, pruned, es) == Refusals(cfg, false, full, es)
    decreases |es|
  {
    if es != [] {
      CoversStep(cfg, pruned, full, es[0], from);
      CoveredRuns(cfg, Next(cfg, true, pruned, es[0]), Next(cfg, false, full, es[0]), es[1..], es[0].now);
    }
  }

  // ----- Necessary -----

  function Burst(key: string, now: real, n: nat): seq<Event> {
    if n == 0 then [] else [Ask(key, now)] + Burst(key, now, n - 1)
  }

  predicate AllPass(cfg: Config, prunes: bool, m: Buckets, es: seq<Event>)
    decreases |es|
  {
    es == [] || (!Refused(cfg, m, es[0]) && AllPass(cfg, prunes, Next(cfg, prunes, m, es[0]), es[1..]))
  }

  lemma {:induction false} AllPassIsNoRefusal(cfg: Config, prunes: bool, m: Buckets, es: seq<Event>)
    ensures AllPass(cfg, prunes, m, es) <==> true !in Refusals(cfg, prunes, m, es)
    decreases |es|
  {
    if es != [] {
      AllPassIsNoRefusal(cfg, prunes, Next(cfg, prunes, m, es[0]), es[1..]);
    }
  }

  lemma {:induction false} AllPassConcat(cfg: Config, prunes: bool, m: Buckets, a: seq<Event>, b: seq<Event>)
    ensures AllPass(cfg, prunes, m, a + b)
            <==> AllPass(cfg, prunes, m, a) && AllPass(cfg, prunes, End(cfg, prunes, m, a), b)
    ensures End(cfg, prunes, m, a + b) == End(cfg, prunes, End(cfg, prunes, m, a), b)
    decreases |a|
  {
    if a == [] {
      assert a + b == b;
    } else {
      assert (a + b)[1..] == a[1..] + b;
      AllPassConcat(cfg, prunes, Next(cfg, prunes, m, a[0]), a[1..], b);
    }
  }

  /** A burst passes when the level covers it, and a passed burst takes its length off the level. */
  lemma {:induction false} BurstDrains(cfg: Config, prunes: bool, m: Buckets, key: string, now: real, n: nat)
    requires Level(cfg, m, key, now) <= cfg.capacity
    ensures Level(cfg, m, key, now) >= n as real ==> AllPass(cfg, prunes, m, Burst(key, now, n))
    ensures AllPass(cfg, prunes, m, Burst(key, now, n)) ==>
              var t := End(cfg, prunes, m, Burst(key, now, n));
              && Level(cfg, t, key, now) == Level(cfg, m, key, now) - n as real
              && (n > 0 ==> key in t && t[key] == Bucket(Level(cfg, m, key, now) - n as real, now))
    decreases n
  {
    if n > 0 {
      var t := Next(cfg, prunes, m, Ask(key, now));
      GainSign(cfg.rate, now - now);
      assert Burst(key, now, n)[1..] == Burst(key, now, n - 1);
      if Level(cfg, m, key, now) >= 1.0 {
        assert Level(cfg, t, key, now) == Level(cfg, m, key, now) - 1.0;
        BurstDrains(cfg, prunes, t, key, now, n - 1);
      }
    }
  }

  lemma {:induction false} BurstIsOrdered(key: string, now: real, n: nat, rest: seq<Event>, from: real)
    requires from <= now && Ordered(rest, now)
    ensures Ordered(Burst(key, now, n) + rest, from)
    decreases n
  {
    if n == 0 {
      assert Burst(key, now, n) + rest == rest;
    } else {
      BurstIsOrdered(key, now, n - 1, rest, now);
      assert (Burst(key, now, n) + rest)[1..] == Burst(key, now, n - 1) + rest;
    }
  }

  /** The fraction a full bucket keeps after giving all its whole tokens. */
  function Rest(capacity: real): (f: real)
    requires capacity >= 1.0
    ensures 0.0 <= f < 1.0 && capacity.Floor >= 1 && f == capacity - capacity.Floor as real
  {
    capacity - capacity.Floor as real
  }

  lemma FullBurst(cfg: Config, prunes: bool, m: Buckets, key: string, now: real)
    requires cfg.capacity >= 1.0 && Level(cfg, m, key, now) <= cfg.capacity
    ensures var n := cfg.capacity.Floor;
            var t := End(cfg, prunes, m, Burst(key, now, n));
            var level := Level(cfg, m, key, now);
            && (level == cfg.capacity ==> AllPass(cfg, prunes, m, Burst(key, now, n)))
            && (AllPass(cfg, prunes, m, Burst(key, now, n)) ==> key in t && t[key] == Bucket(level - n as real, now))
  {
    var f := Rest(cfg.capacity);
    BurstDrains(cfg, prunes, m, key, now, cfg.capacity.Floor);
  }

  /** A bucket that never refills: drained, then forgotten. */
  function StarvedProbe(cfg: Config): seq<Event>
    requires cfg.capacity >= 1.0
  {
    Burst("", 0.0, cfg.capacity.Floor) + [Clean(601.0), Ask("", 601.0)]
  }

  lemma StarvedProbeTells(cfg: Config)
    requires cfg.capacity >= 1.0 && cfg.rate <= 0.0
    ensures Ordered(StarvedProbe(cfg), 0.0)
    ensures AllPass(cfg, true, map[], StarvedProbe(cfg)) && !AllPass(cfg, false, map[], StarvedProbe(cfg))
  {
    var burst, rest := Burst("", 0.0, cfg.capacity.Floor), [Clean(601.0), Ask("", 601.0)];
    assert rest[1..] == [Ask("", 601.0)];
    assert Ordered(rest[1..], 601.0);
    BurstIsOrdered("", 0.0, cfg.capacity.Floor, rest, 0.0);
    FullBurst(cfg, true, map[], "", 0.0);
    FullBurst(cfg, false, map[], "", 0.0);
    AllPassConcat(cfg, true, map[], burst, rest);
    AllPassConcat(cfg, false, map[], burst, rest);
    var t, u := End(cfg, true, map[], burst), End(cfg, false, map[], burst);
    GainSign(cfg.rate, 601.0);
    Waited(cfg, u, "", 0.0, 601.0);
    assert "" !in Kept(t, 601.0);
    assert Refused(cfg, u, Ask("", 601.0));
  }

  lemma Waited(cfg: Config, m: Buckets, key: string, from: real, wait: real)
    requires key in m && m[key].lastFill == from
    ensures Level(cfg, m, key, from + wait) == (if m[key].tokens + Gain(cfg.rate, wait) > cfg.capacity then cfg.capacity
                                                else m[key].tokens + Gain(cfg.rate, wait))
  {
    assert from + wait - from == wait;
  }

  // The general probe. With f the fraction left by a full burst and d the time that earns 1 - f:
  // burst, wait d and spend exactly one token (the bucket is empty); stay idle just past the limit; clean;
  // burst again; wait d and ask. A forgotten bucket passes all of it; a kept one cannot.

  function EmptyAt(cfg: Config): (d: real)
    requires cfg.capacity >= 1.0 && cfg.rate > 0.0
    ensures d > 0.0 && Gain(cfg.rate, d) == 1.0 - Rest(cfg.capacity)
  {
    WaitFor(cfg.rate, 1.0 - Rest(cfg.capacity))
  }

  /** An idle time past the limit that still earns less than the capacity. */
  function IdleTime(cfg: Config): (w: real)
    requires cfg.rate > 0.0 && cfg.capacity > Gain(cfg.rate, IDLE_LIMIT)
    ensures w > IDLE_LIMIT && 0.0 <= Gain(cfg.rate, w) < cfg.capacity
  {
    var slack := cfg.capacity - Gain(cfg.rate, IDLE_LIMIT);
    var extra := WaitFor(cfg.rate, slack / 2.0);
    GainAdds(cfg.rate, IDLE_LIMIT, extra);
    GainSign(cfg.rate, IDLE_LIMIT);
    IDLE_LIMIT + extra
  }

  function Emptying(cfg: Config): seq<Event>
    requires cfg.capacity >= 1.0 && cfg.rate > 0.0
  {
    Burst("", 0.0, cfg.capacity.Floor) + [Ask("", EmptyAt(cfg))]
  }

  lemma EmptyingEmpties(cfg: Config, prunes: bool)
    requires cfg.capacity >= 1.0 && cfg.rate > 0.0
    ensures AllPass(cfg, prunes, map[], Emptying(cfg))
    ensures var t := End(cfg, prunes, map[], Emptying(cfg)); "" in t && t[""] == Bucket(0.0, EmptyAt(cfg))
  {
    var burst, d := Burst("", 0.0, cfg.capacity.Floor), EmptyAt(cfg);
    FullBurst(cfg, prunes, map[], "", 0.0);
    AllPassConcat(cfg, prunes, map[], burst, [Ask("", d)]);
    var t := End(cfg, prunes, map[], burst);
    Waited(cfg, t, "", 0.0, d);
    AskOnce(cfg, prunes, t, "", d);
  }

  lemma AskOnce(cfg: Config, prunes: bool, m: Buckets, key: string, now: real)
    ensures AllPass(cfg, prunes, m, [Ask(key, now)]) <==> Level(cfg, m, key, now) >= 1.0
    ensures End(cfg, prunes, m, [Ask(key, now)]) == m[key := Spent(Level(cfg, m, key, now), now)]
  {
    assert [Ask(key, now)][1..] == [];
  }

  function Closing(cfg: Config): seq<Event>
    requires cfg.capacity >= 1.0 && cfg.rate > 0.0 && cfg.capacity > Gain(cfg.rate, IDLE_LIMIT)
  {
    var t := EmptyAt(cfg) + IdleTime(cfg);
    Burst("", t, cfg.capacity.Floor) + [Ask("", t + EmptyAt(cfg))]
  }

  /** Burst, wait for 1 - f, ask: passes from a full bucket, and from no other. */
  lemma ClosingTellsFull(cfg: Config, prunes: bool, m: Buckets)
    requires cfg.capacity >= 1.0 && cfg.rate > 0.0 && cfg.capacity > Gain(cfg.rate, IDLE_LIMIT)
    requires Level(cfg, m, "", EmptyAt(cfg) + IdleTime(cfg)) <= cfg.capacity
    ensures AllPass(cfg, prunes, m, Closing(cfg)) <==> Level(cfg, m, "", EmptyAt(cfg) + IdleTime(cfg)) == cfg.capacity
  {
    var d, t := EmptyAt(cfg), EmptyAt(cfg) + IdleTime(cfg);
    var burst := Burst("", t, cfg.capacity.Floor);
    FullBurst(cfg, prunes, m, "", t);
    AllPassConcat(cfg, prunes, m, burst, [Ask("", t + d)]);
    var after := End(cfg, prunes, m, burst);
    AskOnce(cfg, prunes, after, "", t + d);
    if AllPass(cfg, prunes, m, burst) {
      Waited(cfg, after, "", t, d);
    }
  }

  function Probe(cfg: Config): seq<Event>
    requires cfg.capacity >= 1.0 && cfg.rate > 0.0 && cfg.capacity > Gain(cfg.rate, IDLE_LIMIT)
  {
    Emptying(cfg) + ([Clean(EmptyAt(cfg) + IdleTime(cfg))] + Closing(cfg))
  }

  lemma OrderedCons(e: Event, rest: seq<Event>, from: real)
    requires from <= e.now && Ordered(rest, e.now)
    ensures Ordered([e] + rest, from)
  {
    assert ([e] + rest)[1..] == rest;
  }

  /** A burst at 0, a request at `d`, a cleanup and a burst at `t`, and a last request. */
  lemma ShapeIsOrdered(d: real, t: real, n: nat)
    requires 0.0 < d < t
    ensures Ordered(Burst("", 0.0, n) + ([Ask("", d)] + ([Clean(t)] + (Burst("", t, n) + [Ask("", t + d)]))), 0.0)
  {
    var last := [Ask("", t + d)];
    OrderedCons(Ask("", t + d), [], t);
    assert last + [] == last;
    BurstIsOrdered("", t, n, last, t);
    OrderedCons(Clean(t), Burst("", t, n) + last, d);
    OrderedCons(Ask("", d), [Clean(t)] + (Burst("", t, n) + last), 0.0);
    BurstIsOrdered("", 0.0, n, [Ask("", d)] + ([Clean(t)] + (Burst("", t, n) + last)), 0.0);
  }

  lemma ProbeIsOrdered(cfg: Config)
    requires cfg.capacity >= 1.0 && cfg.rate > 0.0 && cfg.capacity > Gain(cfg.rate, IDLE_LIMIT)
    ensures Ordered(Probe(cfg), 0.0)
  {
    var d, t, n := EmptyAt(cfg), EmptyAt(cfg) + IdleTime(cfg), cfg.capacity.Floor;
    ShapeIsOrdered(d, t, n);
    var tail := [Clean(t)] + (Burst("", t, n) + [Ask("", t + d)]);
    assert Burst("", 0.0, n) + [Ask("", d)] + tail == Burst("", 0.0, n) + ([Ask("", d)] + tail);
  }

  lemma ProbeTells(cfg: Config)
    requires cfg.capacity >= 1.0 && cfg.rate > 0.0 && cfg.capacity > Gain(cfg.rate, IDLE_LIMIT)
    ensures AllPass(cfg, true, map[], Probe(cfg)) && !AllPass(cfg, false, map[], Probe(cfg))
  {
    var d, w := EmptyAt(cfg), IdleTime(cfg);
    var head, clean := Emptying(cfg), Clean(d + w);
    var tail := [clean] + Closing(cfg);
    assert tail[1..] == Closing(cfg);
    EmptyingEmpties(cfg, true);
    EmptyingEmpties(cfg, false);
    AllPassConcat(cfg, true, map[], head, tail);
    AllPassConcat(cfg, false, map[], head, tail);
    var t, u := End(cfg, true, map[], head), End(cfg, false, map[], head);
    assert d + w - d == w;
    assert "" !in Kept(t, d + w);
    ClosingTellsFull(cfg, true, Kept(t, d + w));
    Waited(cfg, u, "", d, w);
    ClosingTellsFull(cfg, false, u);
  }

  /**
   * Forgetting idle buckets can never be observed exactly when they cannot pass anything, or refill within the idle
   * limit.
   */
  lemma PruningIsInvisibleExactlyWhen(cfg: Config)
    ensures PruningIsInvisible(cfg) <==> cfg.capacity < 1.0 || cfg.capacity <= Gain(cfg.rate, IDLE_LIMIT)
  {
    if cfg.capacity < 1.0 || cfg.capacity <= Gain(cfg.rate, IDLE_LIMIT) {
      forall es: seq<Event>, from: real | Ordered(es, from)
        ensures Refusals(cfg, true, map[], es) == Refusals(cfg, false, map[], es)
      {
        if cfg.capacity < 1.0 {
          TooSmallRefusesAll(cfg, true, map[], es);
          TooSmallRefusesAll(cfg, false, map[], es);
        } else {
          CoveredRuns(cfg, map[], map[], es, from);
        }
      }
    } else {
      var probe := if cfg.rate <= 0.0 then StarvedProbe(cfg) else Probe(cfg);
      if cfg.rate <= 0.0 {
        StarvedProbeTells(cfg);
      } else {
        ProbeIsOrdered(cfg);
        ProbeTells(cfg);
      }
      AllPassIsNoRefusal(cfg, true, map[], probe);
      AllPassIsNoRefusal(cfg, false, map[], probe);
      assert Ordered(probe, 0.0);
      assert Refusals(cfg, true, map[], probe) != Refusals(cfg, false, map[], probe);
    }
  }
}
