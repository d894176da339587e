/** One refilling measure: what it earns while waiting, what it holds, and how much a run can drain from it. */
module Metering {

  /** A limited level after gaining `gain`, capped at `limit`. */
  function Topped(level: real, limit: real, gain: real): real {
    if limit <= 0.0 then level else if level + gain > limit then limit else level + gain
  }

  lemma ProductSplits(x: real, y: real, rate: real)
    ensures (x + y) * rate == x * rate + y * rate
    ensures rate > 0.0 && y > 0.0 ==> y * rate > 0.0
  {
  }

  /** What waiting gains at a rate, kept as one term so that facts about it match without unfolding the product. */
  function Gain(rate: real, wait: real): real {
    wait * rate
  }

  lemma GainAdds(rate: real, x: real, y: real)
    ensures Gain(rate, x + y) == Gain(rate, x) + Gain(rate, y)
  {
  }

  lemma GainSign(rate: real, wait: real)
    ensures rate >= 0.0 && wait >= 0.0 ==> Gain(rate, wait) >= 0.0
    ensures rate <= 0.0 && wait >= 0.0 ==> Gain(rate, wait) <= 0.0
    ensures rate > 0.0 && Gain(rate, wait) > 0.0 ==> wait > 0.0
    ensures wait == 0.0 ==> Gain(rate, wait) == 0.0
  {
    if rate > 0.0 && wait <= 0.0 {
      assert Gain(rate, -wait) >= 0.0;
    }
  }

  /** The wait that gains a given amount. */
  function WaitFor(rate: real, amount: real): (wait: real)
    requires rate > 0.0
    ensures Gain(rate, wait) == amount
    ensures amount > 0.0 ==> wait > 0.0
  {
    var wait := amount / rate;
    assert wait * rate == amount;
    GainSign(rate, wait);
    wait
  }

  predicate Adds(earn: real -> real, x: real, y: real) {
    earn(x + y) == earn(x) + earn(y)
  }

  /** What waiting earns: additive, never negative. Multiplication by a rate is one such function. */
  ghost predicate Earns(earn: real -> real) {
    && (forall x: real, y: real | x >= 0.0 && y >= 0.0 :: Adds(earn, x, y))
    && (forall x: real | x >= 0.0 :: earn(x) >= 0.0)
  }

  /** Earning at `rate` a minute. */
  function Earning(rate: real): real -> real {
    minutes => minutes * rate
  }

  lemma EarningIsGain(rate: real, minutes: real)
    ensures Earning(rate)(minutes) == Gain(rate, minutes)
  {
  }

  lemma EarningEarns(rate: real)
    requires rate > 0.0
    ensures Earns(Earning(rate))
  {
    var earn := Earning(rate);
    forall x: real, y: real | x >= 0.0 && y >= 0.0 ensures Adds(earn, x, y) {
      ProductSplits(x, y, rate);
    }
    forall x: real | x >= 0.0 ensures earn(x) >= 0.0 {
      ProductSplits(0.0, x, rate);
    }
  }

  /** A level and the reading it was last refilled at. */
  datatype Meter = Meter(level: real, last: real)

  /** What a meter holds once refilled up to `t`. */
  function Held(earn: real -> real, limit: real, m: Meter, t: real): real {
    if t - m.last <= 0.0 then m.level else Topped(m.level, limit, earn(t - m.last))
  }

  /** One use: the meter is refilled, then drained by `cost`; or left alone. */
  datatype Drain = Drain(now: real, refills: bool, cost: real)

  function After(earn: real -> real, limit: real, m: Meter, d: Drain): Meter {
    if !d.refills then m
    else Meter(Held(earn, limit, m, d.now) - d.cost, if d.now > m.last then d.now else m.last)
  }

  function Run(earn: real -> real, limit: real, m: Meter, ds: seq<Drain>): Meter
    decreases |ds|
  {
    if ds == [] then m else Run(earn, limit, After(earn, limit, m, ds[0]), ds[1..])
  }

  /** Readings do not go back and lie between `from` and `until`; leaving alone drains nothing. */
  predicate Timed(ds: seq<Drain>, from: real, until: real)
    decreases |ds|
  {
    if ds == [] then from <= until
    else from <= ds[0].now && (!ds[0].refills ==> ds[0].cost == 0.0) && Timed(ds[1..], ds[0].now, until)
  }

  function Drained(ds: seq<Drain>): real {
    if ds == [] then 0.0 else ds[0].cost + Drained(ds[1..])
  }

  lemma HeldGains(earn: real -> real, limit: real, m: Meter, from: real, now: real)
    requires Earns(earn) && limit > 0.0 && from <= now
    ensures Held(earn, limit, m, now) <= Held(earn, limit, m, from) + earn(now - from)
  {
    if from <= m.last < now {
      assert Adds(earn, now - m.last, m.last - from);
      assert now - m.last + (m.last - from) == now - from;
    } else if m.last < from {
      assert Adds(earn, from - m.last, now - from);
      assert from - m.last + (now - from) == now - m.last;
    }
  }

  /** What a run drains and what it leaves come from what was held at its start and what was earned during it. */
  lemma {:induction false} Conservation(earn: real -> real, limit: real, m: Meter, ds: seq<Drain>, from: real,
                                        until: real)
    requires Earns(earn) && limit > 0.0 && Timed(ds, from, until)
    ensures from <= until
    ensures Drained(ds) + Held(earn, limit, Run(earn, limit, m, ds), until)
            <= Held(earn, limit, m, from) + earn(until - from)
    decreases |ds|
  {
    if ds == [] {
      HeldGains(earn, limit, m, from, until);
    } else {
      var d := ds[0];
      var n := After(earn, limit, m, d);
      Conservation(earn, limit, n, ds[1..], d.now, until);
      HeldGains(earn, limit, m, from, d.now);
      assert Adds(earn, d.now - from, until - d.now);
      assert d.now - from + (until - d.now) == until - from;
    }
  }

  lemma HeldIsWithin(earn: real -> real, limit: real, m: Meter, t: real)
    requires Earns(earn) && limit > 0.0
    ensures m.level >= 0.0 ==> Held(earn, limit, m, t) >= 0.0
    ensures m.level <= limit ==> m.level <= Held(earn, limit, m, t) <= limit
  {
  }

  /** What a full meter and `minutes` of refilling allow: rate * (1 + minutes). */
  function Allowance(rate: real, minutes: real): real {
    rate + Earning(rate)(minutes)
  }

  lemma AllowanceIsProduct(rate: real, minutes: real)
    ensures Allowance(rate, minutes) == rate * (1.0 + minutes)
  {
  }

  /** A meter that starts within its limit drains and leaves no more than its allowance. */
  lemma DrainBound(rate: real, m: Meter, ds: seq<Drain>, from: real, until: real)
    requires rate > 0.0 && m.level <= rate && Timed(ds, from, until)
    ensures Drained(ds) + Held(Earning(rate), rate, Run(Earning(rate), rate, m, ds), until)
            <= Allowance(rate, until - from)
  {
    EarningEarns(rate);
    Conservation(Earning(rate), rate, m, ds, from, until);
    HeldIsWithin(Earning(rate), rate, m, from);
  }
}
