/** Quota shared by real requests and warm-ups: real traffic always draws, a warm-up only above the reserve. */
module Quota {
  import opened Metering

  /** Readings are in minutes. */
  datatype Bucket = Bucket(tokens: real, lastFill: real)

  type Buckets = map<string, Bucket>

  /** `rpm` is positive and `reserve` a share of it, as the constructor leaves them. */
  datatype Config = Config(rpm: real, reserve: real)

  function Key(provider: string, fp: string): string {
    provider + "|" + fp
  }

  function Refill(rpm: real, b: Bucket, now: real): Bucket {
    if now - b.lastFill <= 0.0 then b
    else
      var tokens := b.tokens + Gain(rpm, now - b.lastFill);
      Bucket(if tokens > rpm then rpm else tokens, now)
  }

  /** The refilled bucket of a key; a new key starts full. */
  function Opened(c: Config, m: Buckets, key: string, now: real): Bucket {
    if key in m then Refill(c.rpm, m[key], now) else Bucket(c.rpm, now)
  }

  predicate Grants(c: Config, b: Bucket) {
    !(b.tokens <= Gain(c.rpm, c.reserve) || b.tokens < 1.0)
  }

  datatype Event = Real(key: string, now: real) | Warm(key: string, now: real) | Look(key: string, now: real)

  /** What an event takes from its key's bucket. */
  function Cost(c: Config, m: Buckets, e: Event): real {
    var b := Opened(c, m, e.key, e.now);
    match e
    case Real(_, _) => if b.tokens > 0.0 then 1.0 else 0.0
    case Warm(_, _) => if Grants(c, b) then 1.0 else 0.0
    case Look(_, _) => 0.0
  }

  function Next(c: Config, m: Buckets, e: Event): Buckets {
    var b := Opened(c, m, e.key, e.now);
    m[e.key := b.(tokens := b.tokens - Cost(c, m, e))]
  }

  predicate Granted(c: Config, m: Buckets, e: Event) {
    e.Warm? && Grants(c, Opened(c, m, e.key, e.now))
  }

  class QuotaCoordinator {
    const cfg: Config
    var buckets: Buckets

    constructor (rpm: real, warmReserve: real)
      ensures cfg == Config(if rpm <= 0.0 then 30.0 else rpm, if warmReserve <= 0.0 then 0.30 else warmReserve)
      ensures buckets == map[]
    {
      cfg := Config(if rpm <= 0.0 then 30.0 else rpm, if warmReserve <= 0.0 then 0.30 else warmReserve);
      buckets := map[];
    }

    /** Finds or creates the bucket of a key and refills it. */
    method Open(key: string, now: real) returns (b: Bucket)
      modifies this
      ensures b == Opened(cfg, old(buckets), key, now)
      ensures buckets == old(buckets)[key := b]
    {
      if key !in buckets {
        buckets := buckets[key := Bucket(cfg.rpm, now)];
      }
      b := buckets[key];
      var elapsed := now - b.lastFill;
      if elapsed <= 0.0 {
        return;
      }
      b := Bucket(b.tokens + Gain(cfg.rpm, elapsed), now);
      if b.tokens > cfg.rpm {
        b := b.(tokens := cfg.rpm);
      }
      buckets := buckets[key := b];
    }

    method RealRequest(provider: string, fp: string, now: real)
      modifies this
      ensures buckets == Next(cfg, old(buckets), Real(Key(provider, fp), now))
    {
      var key := Key(provider, fp);
      var b := Open(key, now);
      if b.tokens > 0.0 {
        buckets := buckets[key := b.(tokens := b.tokens - 1.0)];
      }
    }

    method WarmAllowed(provider: string, fp: string, now: real) returns (allowed: bool)
      modifies this
      ensures allowed == Granted(cfg, old(buckets), Warm(Key(provider, fp), now))
      ensures buckets == Next(cfg, old(buckets), Warm(Key(provider, fp), now))
    {
      var key := Key(provider, fp);
      var b := Open(key, now);
      var reserved := Gain(cfg.rpm, cfg.reserve);
      if b.tokens <= reserved || b.tokens < 1.0 {
        return false;
      }
      buckets := buckets[key := b.(tokens := b.tokens - 1.0)];
      return true;
    }

    method Remaining(provider: string, fp: string, now: real) returns (tokens: real)
      modifies this
      ensures tokens == Opened(cfg, old(buckets), Key(provider, fp), now).tokens
      ensures buckets == Next(cfg, old(buckets), Look(Key(provider, fp), now))
    {
      var b := Open(Key(provider, fp), now);
      tokens := b.tokens;
    }
  }

  // ----- In numbers -----

  /** A new key starts with a full bucket; time that passes earns rpm tokens a minute, up to rpm. */
  lemma OpenedInNumbers(c: Config, m: Buckets, key: string, now: real)
    ensures var b := Opened(c, m, key, now);
            && (key !in m ==> b.tokens == c.rpm)
            && (key in m ==>
                  var minutes := now - m[key].lastFill;
                  && (minutes <= 0.0 ==> b == m[key])
                  && (minutes > 0.0 ==>
                        var earned := m[key].tokens + minutes * c.rpm;
                        b.lastFill == now && b.tokens == if earned <= c.rpm then earned else c.rpm))
  {
  }

  /**
   * A real request takes a token whenever the bucket is not empty, down to less than one below zero; a warm-up takes
   * one only from more than the reserve and from a whole token; looking takes none. No other bucket is touched.
   */
  lemma NextInNumbers(c: Config, m: Buckets, e: Event)
    ensures var (b, after) := (Opened(c, m, e.key, e.now), Next(c, m, e));
            && e.key in after
            && (Granted(c, m, e) <==> e.Warm? && b.tokens > c.reserve * c.rpm && b.tokens >= 1.0)
            && after[e.key].tokens == (match e
                                       case Real(_, _) => if b.tokens > 0.0 then b.tokens - 1.0 else b.tokens
                                       case Warm(_, _) =>
                                         if b.tokens > c.reserve * c.rpm && b.tokens >= 1.0 then b.tokens - 1.0
                                         else b.tokens
                                       case Look(_, _) => b.tokens)
            && forall k | k != e.key :: (k in after <==> k in m) && (k in m ==> after[k] == m[k])
  {
  }

  // ----- Bounds on levels -----

  /** Every bucket lies in (-1, rpm]. */
  predicate InRange(c: Config, m: Buckets) {
    forall k | k in m :: -1.0 < m[k].tokens <= c.rpm
  }

  lemma OpenedInRange(c: Config, m: Buckets, key: string, now: real)
    requires c.rpm > 0.0 && InRange(c, m)
    ensures -1.0 < Opened(c, m, key, now).tokens <= c.rpm
  {
    if key in m {
      GainSign(c.rpm, now - m[key].lastFill);
    }
  }

  lemma StepKeepsRange(c: Config, m: Buckets, e: Event)
    requires c.rpm > 0.0 && InRange(c, m)
    ensures InRange(c, Next(c, m, e))
  {
    OpenedInRange(c, m, e.key, e.now);
  }

  /**
   * A granted warm-up leaves more than the reserve less one token, and never overdraws; a refused one takes nothing.
   */
  lemma WarmLeavesTheReserve(c: Config, m: Buckets, key: string, now: real)
    ensures var left := Next(c, m, Warm(key, now))[key].tokens;
            if Granted(c, m, Warm(key, now)) then left > Gain(c.rpm, c.reserve) - 1.0 && left >= 0.0
            else left == Opened(c, m, key, now).tokens
  {
  }

  // ----- The bound on warm-ups over a run -----

  predicate Ordered(es: seq<Event>, from: real, until: real)
    decreases |es|
  {
    if es == [] then from <= until else from <= es[0].now && Ordered(es[1..], es[0].now, until)
  }

  function End(c: Config, m: Buckets, es: seq<Event>): Buckets
    decreases |es|
  {
    if es == [] then m else End(c, Next(c, m, es[0]), es[1..])
  }

  function WarmGrants(c: Config, m: Buckets, es: seq<Event>, key: string): int
    decreases |es|
  {
    if es == [] then 0
    else
      (if es[0].key == key && Granted(c, m, es[0]) then 1 else 0) + WarmGrants(c, Next(c, m, es[0]), es[1..], key)
  }

  /** A key's bucket as a meter at `now`; a key not yet seen is full. */
  function MeterOf(c: Config, m: Buckets, key: string, now: real): Meter {
    if key in m then Meter(m[key].tokens, m[key].lastFill) else Meter(c.rpm, now)
  }

  /** What a run does to one key's meter. */
  function Drains(c: Config, m: Buckets, es: seq<Event>, key: string): seq<Drain>
    decreases |es|
  {
    if es == [] then []
    else
      var e := es[0];
      var d := if e.key == key then Drain(e.now, true, Cost(c, m, e)) else Drain(e.now, key !in m, 0.0);
      [d] + Drains(c, Next(c, m, e), es[1..], key)
  }

  /** Opening a bucket reads what its meter holds. */
  lemma OpenedIsHeld(c: Config, m: Buckets, key: string, from: real, now: real)
    requires c.rpm > 0.0 && from <= now
    ensures var meter := MeterOf(c, m, key, from);
            Opened(c, m, key, now)
                == Bucket(Held(Earning(c.rpm), c.rpm, meter, now), if now > meter.last then now else meter.last)
  {
    var meter := MeterOf(c, m, key, from);
    assert Earning(c.rpm)(now - meter.last) == Gain(c.rpm, now - meter.last);
    GainSign(c.rpm, now - from);
  }

  lemma StepOnMeter(c: Config, m: Buckets, e: Event, key: string, from: real)
    requires c.rpm > 0.0 && from <= e.now
    ensures var d := if e.key == key then Drain(e.now, true, Cost(c, m, e)) else Drain(e.now, key !in m, 0.0);
            MeterOf(c, Next(c, m, e), key, e.now) == After(Earning(c.rpm), c.rpm, MeterOf(c, m, key, from), d)
  {
    OpenedIsHeld(c, m, key, from, e.now);
    if e.key != key && key !in m {
      assert Opened(c, m, key, e.now) == Bucket(c.rpm, e.now);
    }
  }

  lemma {:induction false} RunOnMeter(c: Config, m: Buckets, es: seq<Event>, key: string, from: real, until: real)
    requires c.rpm > 0.0 && Ordered(es, from, until)
    ensures Timed(Drains(c, m, es, key), from, until)
    ensures WarmGrants(c, m, es, key) as real <= Drained(Drains(c, m, es, key))
    ensures key in End(c, m, es) ==>
              Run(Earning(c.rpm), c.rpm, MeterOf(c, m, key, from), Drains(c, m, es, key))
                  == MeterOf(c, End(c, m, es), key, until)
    decreases |es|
  {
    if es != [] {
      var e := es[0];
      StepOnMeter(c, m, e, key, from);
      RunOnMeter(c, Next(c, m, e), es[1..], key, e.now, until);
      assert Drains(c, m, es, key)[1..] == Drains(c, Next(c, m, e), es[1..], key);
    }
  }

  lemma {:induction false} EndSplits(c: Config, m: Buckets, es: seq<Event>, key: string)
    requires es != []
    ensures var front, last := es[..|es| - 1], es[|es| - 1];
            && End(c, m, es) == Next(c, End(c, m, front), last)
            && WarmGrants(c, m, es, key) == WarmGrants(c, m, front, key)
                                            + (if last.key == key && Granted(c, End(c, m, front), last) then 1 else 0)
    decreases |es|
  {
    if |es| > 1 {
      EndSplits(c, Next(c, m, es[0]), es[1..], key);
      assert es[1..][..|es| - 2] == es[..|es| - 1][1..];
    }
  }

  lemma {:induction false} OrderedFront(es: seq<Event>, from: real, until: real)
    requires es != [] && Ordered(es, from, until)
    ensures Ordered(es[..|es| - 1], from, until)
    decreases |es|
  {
    if |es| > 1 {
      OrderedFront(es[1..], es[0].now, until);
      assert es[1..][..|es| - 2] == es[..|es| - 1][1..];
    } else {
      assert es[1..] == [];
    }
  }

  lemma {:induction false} RunKeepsRange(c: Config, m: Buckets, es: seq<Event>)
    requires c.rpm > 0.0 && InRange(c, m)
    ensures InRange(c, End(c, m, es))
    decreases |es|
  {
    if es != [] {
      StepKeepsRange(c, m, es[0]);
      RunKeepsRange(c, Next(c, m, es[0]), es[1..]);
    }
  }

  /** A key's bucket holds no more than its meter does at any later reading. */
  lemma LeftIsHeld(earn: real -> real, c: Config, m: Buckets, key: string, until: real)
    requires c.rpm > 0.0 && InRange(c, m) && key in m && Earns(earn)
    ensures m[key].tokens <= Held(earn, c.rpm, MeterOf(c, m, key, until), until)
  {
    HeldIsWithin(earn, c.rpm, MeterOf(c, m, key, until), until);
  }

  /** What a meter that starts full or less drains, and what a bucket it ends as then holds. */
  lemma DrainedAndLeft(earn: real -> real, c: Config, start: Meter, ds: seq<Drain>, m: Buckets, key: string,
                       from: real, until: real)
    requires c.rpm > 0.0 && InRange(c, m) && key in m && Earns(earn) && start.level <= c.rpm && Timed(ds, from, until)
    requires Run(earn, c.rpm, start, ds) == MeterOf(c, m, key, until)
    ensures Drained(ds) + m[key].tokens <= c.rpm + earn(until - from)
  {
    Conservation(earn, c.rpm, start, ds, from, until);
    HeldIsWithin(earn, c.rpm, start, from);
    LeftIsHeld(earn, c, m, key, until);
  }

  /**
   * What the key's warm-ups drained and what its bucket then holds fit in a full bucket and the earnings of the run.
   */
  lemma WarmUpsAreDrained(c: Config, m: Buckets, es: seq<Event>, key: string, from: real, until: real)
    requires c.rpm > 0.0 && InRange(c, m) && Ordered(es, from, until) && key in End(c, m, es)
    ensures WarmGrants(c, m, es, key) as real + End(c, m, es)[key].tokens <= c.rpm + Gain(c.rpm, until - from)
  {
    RunOnMeter(c, m, es, key, from, until);
    RunKeepsRange(c, m, es);
    EarningEarns(c.rpm);
    DrainedAndLeft(Earning(c.rpm), c, MeterOf(c, m, key, from), Drains(c, m, es, key), End(c, m, es), key, from, until);
    EarningIsGain(c.rpm, until - from);
  }

  /**
   * Over any `until - from` minutes a key's warm-ups, if there are any, number fewer than
   * rpm - reserve share + what the minutes earn + 1, however real requests interleave.
   */
  lemma {:induction false} WarmUpsAreBounded(c: Config, m: Buckets, es: seq<Event>, key: string, from: real,
                                             until: real)
    requires c.rpm > 0.0 && InRange(c, m) && Ordered(es, from, until)
    requires WarmGrants(c, m, es, key) > 0
    ensures WarmGrants(c, m, es, key) as real < c.rpm - Gain(c.rpm, c.reserve) + Gain(c.rpm, until - from) + 1.0
    decreases |es|
  {
    var front, last := es[..|es| - 1], es[|es| - 1];
    EndSplits(c, m, es, key);
    if last.key == key && Granted(c, End(c, m, front), last) {
      WarmUpsAreDrained(c, m, es, key, from, until);
      WarmLeavesTheReserve(c, End(c, m, front), key, last.now);
    } else {
      OrderedFront(es, from, until);
      WarmUpsAreBounded(c, m, front, key, from, until);
    }
  }
}
