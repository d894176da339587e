/** The sliding-window circuit breaker: its buckets refine an event log, and its runs keep to four edges. */
module Circuit {
  import opened Windows

  datatype CircuitState = Closed | Open | HalfOpen

  datatype Config = Config(
    numBuckets: int,
    failureRate: real,
    slowRate: real,
    slowDuration: int,
    wait: int,
    halfOpenPermits: seq<int>,
    minCalls: int)

  const DEFAULTS := Config(10, 0.5, 0.5, 10_000_000_000, 30_000_000_000, [1, 3, 10], 5)

  /** Fields left at zero or below take their defaults. */
  function Completed(c: Config): (r: Config)
    ensures WellFormed(r)
  {
    Config(
      if c.numBuckets <= 0 then DEFAULTS.numBuckets else c.numBuckets,
      if c.failureRate <= 0.0 then DEFAULTS.failureRate else c.failureRate,
      if c.slowRate <= 0.0 then DEFAULTS.slowRate else c.slowRate,
      if c.slowDuration <= 0 then DEFAULTS.slowDuration else c.slowDuration,
      if c.wait <= 0 then DEFAULTS.wait else c.wait,
      if c.halfOpenPermits == [] then DEFAULTS.halfOpenPermits else c.halfOpenPermits,
      if c.minCalls <= 0 then DEFAULTS.minCalls else c.minCalls)
  }

  predicate WellFormed(c: Config) {
    && c.numBuckets > 0 && c.failureRate > 0.0 && c.slowRate > 0.0
    && c.wait > 0 && c.halfOpenPermits != [] && c.minCalls > 0
  }

  // ----- The breaker over an event log -----

  /** `log` holds the outcomes recorded since the window was last emptied; `epoch` counts bucket advances. */
  datatype Breaker = Breaker(
    cfg: Config,
    state: CircuitState,
    log: Log,
    epoch: int,
    openedAt: int,
    halfOpenOK: int,
    halfOpenNeed: int)

  function Window(b: Breaker): Counts {
    Tally(b.log, b.epoch - b.cfg.numBuckets + 1, b.epoch)
  }

  /** The current slice and the one before it (itself, in a window of one slice). */
  function Recent(b: Breaker): Counts {
    var before := if b.cfg.numBuckets == 1 then b.epoch else b.epoch - 1;
    var now, last := Tally(b.log, b.epoch, b.epoch), Tally(b.log, before, before);
    Counts(now.successes + last.successes, now.failures + last.failures, now.slow + last.slow)
  }

  datatype Thresholds = Thresholds(minCalls: int, failureRate: real, slowRate: real)

  /** The fraction `rate` of `total`, kept as one term so that facts about it match without unfolding the product. */
  function Scaled(rate: real, total: int): real {
    rate * total as real
  }

  /** `part` is at least the fraction `rate` of `total`. */
  predicate AtLeast(part: int, total: int, rate: real) {
    part as real >= Scaled(rate, total)
  }

  /** Sensitivity adapts to the failure rate of the last two slices. */
  function Sensitivity(cfg: Config, recent: Counts, total: int): Thresholds {
    var lately := recent.successes + recent.failures;
    if lately > 0 && recent.failures as real > 0.15 * lately as real then Thresholds(3, 0.4, 0.4)
    else if lately > 0 && recent.failures as real < 0.03 * lately as real && total >= 20 then Thresholds(5, 0.6, 0.6)
    else Thresholds(cfg.minCalls, cfg.failureRate, cfg.slowRate)
  }

  /** The decision to trip, on counts alone. */
  predicate TripsOn(cfg: Config, recent: Counts, window: Counts) {
    var total := window.successes + window.failures;
    var t := Sensitivity(cfg, recent, total);
    total >= t.minCalls && (AtLeast(window.failures, total, t.failureRate) || AtLeast(window.slow, total, t.slowRate))
  }

  /** An empty log never trips: EmptyWindowNeverTrips shows this takes nothing away from TripsOn. */
  predicate Trips(b: Breaker) {
    b.log.Logged? && TripsOn(b.cfg, Recent(b), Window(b))
  }

  function Tripped(b: Breaker, now: int): (r: Breaker)
    ensures r.cfg == b.cfg
  {
    b.(state := Open, log := Blank, openedAt := now)
  }

  function Evaluated(b: Breaker, now: int): (r: Breaker)
    requires WellFormed(b.cfg)
    ensures r.cfg == b.cfg
  {
    match b.state
    case Open =>
      if now - b.openedAt >= b.cfg.wait then
        b.(state := HalfOpen, halfOpenNeed := b.cfg.halfOpenPermits[0], halfOpenOK := 0)
      else b
    case HalfOpen => b
    case Closed => if Trips(b) then Tripped(b, now) else b
  }

  datatype Event =
    | Record(failed: bool, duration: int, now: int)
    | Allow(now: int)
    | AdvanceBucket

  function Noted(b: Breaker, o: Outcome, now: int): (r: Breaker)
    ensures r.cfg == b.cfg
  {
    b.(log := Logged(b.log, Entry(b.epoch, now, o)))
  }

  /** What a half-open breaker makes of one more outcome. */
  function Settled(b: Breaker, failed: bool, now: int): (r: Breaker)
    ensures r.cfg == b.cfg
  {
    if b.state != HalfOpen then b
    else if failed then Tripped(b, now)
    else if b.halfOpenOK + 1 >= b.halfOpenNeed then b.(state := Closed, log := Blank, halfOpenOK := b.halfOpenOK + 1)
    else b.(halfOpenOK := b.halfOpenOK + 1)
  }

  function Step(b: Breaker, e: Event): (r: Breaker)
    requires WellFormed(b.cfg)
    ensures r.cfg == b.cfg
  {
    match e
    case Record(failed, duration, now) =>
      Evaluated(Settled(Noted(b, Outcome(failed, duration > b.cfg.slowDuration), now), failed, now), now)
    case Allow(now) => Evaluated(b, now)
    case AdvanceBucket => b.(epoch := b.epoch + 1)
  }

  function Run(b: Breaker, es: seq<Event>): (r: Breaker)
    requires WellFormed(b.cfg)
    ensures r.cfg == b.cfg
  {
    if es == [] then b else Step(Run(b, es[..|es| - 1]), es[|es| - 1])
  }

  // ----- The implementation -----

  lemma QuotientCompares(part: real, total: real, rate: real)
    requires total > 0.0
    ensures part / total >= rate <==> part >= rate * total
    ensures part / total > rate <==> part > rate * total
    ensures part / total < rate <==> part < rate * total
  {
    var q := part / total;
    assert q * total == part;
    assert (q - rate) * total == part - rate * total;
  }

  lemma RateCompares(part: int, total: int, rate: real)
    requires total > 0
    ensures part as real / total as real >= rate <==> AtLeast(part, total, rate)
  {
    QuotientCompares(part as real, total as real, rate);
  }

  /** The adaptive threshold test, with the rates as quotients. */
  method ShouldTrip(cfg: Config, recent: Counts, window: Counts) returns (trips: bool)
    requires WellFormed(cfg)
    ensures trips == TripsOn(cfg, recent, window)
  {
    var total := window.Total();
    var minCalls, rateThr, slowThr := cfg.minCalls, cfg.failureRate, cfg.slowRate;
    if recent.Total() > 0 {
      var recentRate := recent.failures as real / recent.Total() as real;
      QuotientCompares(recent.failures as real, recent.Total() as real, 0.15);
      QuotientCompares(recent.failures as real, recent.Total() as real, 0.03);
      if recentRate > 0.15 {
        minCalls, rateThr, slowThr := 3, 0.4, 0.4;
      } else if recentRate < 0.03 && total >= 20 {
        minCalls, rateThr, slowThr := 5, 0.6, 0.6;
      }
    }
    if total < minCalls {
      return false;
    }
    var failureRate := window.failures as real / total as real;
    var slowRate := window.slow as real / total as real;
    RateCompares(window.failures, total, rateThr);
    RateCompares(window.slow, total, slowThr);
    trips := failureRate >= rateThr || slowRate >= slowThr;
  }

  class CircuitBreaker {
    const cfg: Config
    var state: CircuitState
    var buckets: array<Counts>
    var currentIdx: nat
    var openedAt: int
    var halfOpenOK: int
    var halfOpenNeed: int
    ghost var log: Log
    ghost var epoch: int

    ghost predicate Valid()
      reads this, buckets
    {
      && WellFormed(cfg)
      && buckets.Length == cfg.numBuckets
      && Mirrors(buckets[..], currentIdx, log, epoch)
    }

    ghost function View(): Breaker
      reads this
    {
      Breaker(cfg, state, log, epoch, openedAt, halfOpenOK, halfOpenNeed)
    }

    constructor (config: Config)
      ensures Valid() && fresh(buckets)
      ensures WellFormed(config) && config.slowDuration > 0 ==> cfg == config
      ensures View() == Breaker(Completed(config), Closed, Blank, 0, 0, 0, Completed(config).halfOpenPermits[0])
    {
      var c := Completed(config);
      cfg, state, currentIdx, openedAt, halfOpenOK, halfOpenNeed := c, Closed, 0, 0, 0, c.halfOpenPermits[0];
      buckets := new Counts[c.numBuckets](_ => NoCounts());
      log, epoch := Blank, 0;
      new;
      EmptyMirrors(buckets[..], 0, 0);
    }

    method TransitionTo(newState: CircuitState, now: int)
      requires Valid()
      modifies this
      ensures Valid() && (buckets == old(buckets) || fresh(buckets))
      ensures View() ==
              match newState
              case Open => Tripped(old(View()), now)
              case Closed => old(View()).(state := Closed, log := Blank)
              case HalfOpen => old(View()).(state := HalfOpen, halfOpenNeed := cfg.halfOpenPermits[0], halfOpenOK := 0)
    {
      state := newState;
      match newState {
        case Open =>
          openedAt := now;
          buckets := new Counts[cfg.numBuckets](_ => NoCounts());
          log := Blank;
          EmptyMirrors(buckets[..], currentIdx, epoch);
        case Closed =>
          buckets := new Counts[cfg.numBuckets](_ => NoCounts());
          currentIdx := 0;
          log := Blank;
          EmptyMirrors(buckets[..], currentIdx, epoch);
        case HalfOpen =>
          halfOpenNeed := cfg.halfOpenPermits[0];
          halfOpenOK := 0;
      }
    }

    /** The window's counts, by a loop over all buckets. */
    method WindowCounts() returns (window: Counts)
      requires Valid()
      ensures window == Window(View())
    {
      window := NoCounts();
      ghost var all := buckets[..];
      for i := 0 to buckets.Length
        invariant window == Sum(all[..i])
      {
        SumOneMore(all, i);
        var b := buckets[i];
        window := Counts(window.successes + b.successes, window.failures + b.failures, window.slow + b.slow);
      }
      assert all[..buckets.Length] == all;
    }

    /** The counts of the last two buckets. */
    method RecentCounts() returns (recent: Counts)
      requires Valid()
      ensures recent == Recent(View())
    {
      var n := buckets.Length;
      var prevIdx := (currentIdx - 1 + n) % n;
      PreviousIsSlotOne(currentIdx, n);
      assert buckets[..][Slot(currentIdx, 0, n)] == Tally(log, epoch, epoch);
      assert n > 1 ==> buckets[..][Slot(currentIdx, 1, n)] == Tally(log, epoch - 1, epoch - 1);
      var now, last := buckets[currentIdx], buckets[prevIdx];
      recent := Counts(now.successes + last.successes, now.failures + last.failures, now.slow + last.slow);
    }

    method Evaluate(now: int)
      requires Valid()
      modifies this
      ensures Valid() && (buckets == old(buckets) || fresh(buckets))
      ensures View() == Evaluated(old(View()), now)
    {
      if state == Open {
        if now - openedAt >= cfg.wait {
          TransitionTo(HalfOpen, now);
        }
        return;
      }
      if state != Closed {
        return;
      }
      var window := WindowCounts();
      var recent := RecentCounts();
      var trips := ShouldTrip(cfg, recent, window);
      TripsIsTripsOn(View());
      if trips {
        TransitionTo(Open, now);
      }
    }

    method Allow(now: int) returns (allowed: bool)
      requires Valid()
      modifies this
      ensures Valid() && (buckets == old(buckets) || fresh(buckets))
      ensures View() == Step(old(View()), Event.Allow(now))
      ensures allowed == (View().state != Open)
    {
      Evaluate(now);
      allowed := state != Open;
    }

    method Record(failed: bool, duration: int, now: int)
      requires Valid()
      modifies this, buckets
      ensures Valid() && (buckets == old(buckets) || fresh(buckets))
      ensures View() == Step(old(View()), Event.Record(failed, duration, now))
    {
      var outcome := Outcome(failed, duration > cfg.slowDuration);
      ghost var before := buckets[..];
      RecordMirrors(before, currentIdx, log, epoch, now, outcome);
      buckets[currentIdx] := buckets[currentIdx].Add(outcome);
      log := Logged(log, Entry(epoch, now, outcome));
      assert buckets[..] == before[currentIdx := before[currentIdx].Add(outcome)];
      ghost var noted := View();
      assert Valid() && noted == Noted(old(View()), outcome, now);
      if state == HalfOpen {
        if !failed {
          halfOpenOK := halfOpenOK + 1;
          if halfOpenOK >= halfOpenNeed {
            TransitionTo(Closed, now);
          }
        } else {
          TransitionTo(Open, now);
        }
      }
      assert View() == Settled(noted, failed, now);
      Evaluate(now);
    }

    method AdvanceBucket()
      requires Valid()
      modifies this, buckets
      ensures Valid() && buckets == old(buckets)
      ensures View() == Step(old(View()), Event.AdvanceBucket)
    {
      ghost var before := buckets[..];
      AdvanceMirrors(before, currentIdx, log, epoch);
      NextIsModulo(currentIdx, cfg.numBuckets);
      currentIdx := (currentIdx + 1) % cfg.numBuckets;
      buckets[currentIdx] := NoCounts();
      epoch := epoch + 1;
      assert buckets[..] == before[currentIdx := NoCounts()];
    }
  }

  lemma PreviousIsSlotOne(current: nat, n: nat)
    requires current < n
    ensures (current - 1 + n) % n == if n == 1 then current else Slot(current, 1, n)
  {
    if current > 0 {
      assert (current - 1 + n) % n == current - 1;
    }
  }

  // ----- What one event does in each state -----

  lemma EmptyWindowNeverTrips(b: Breaker)
    requires WellFormed(b.cfg) && b.log == Blank
    ensures !TripsOn(b.cfg, Recent(b), Window(b))
  {
    assert Recent(b) == NoCounts();
    assert Window(b) == NoCounts();
    NothingBadNoTrip(b.cfg, NoCounts(), NoCounts());
  }

  predicate HasNow(e: Event) {
    !e.AdvanceBucket?
  }

  /** A closed breaker stays closed, or opens at the event's reading with its window emptied. */
  lemma ClosedStep(b: Breaker, e: Event)
    requires WellFormed(b.cfg) && b.state == Closed
    ensures var r := Step(b, e);
            || r.state == Closed
            || (r.state == Open && HasNow(e) && r.openedAt == e.now && r.log == Blank)
  {
  }

  /** An open breaker half-opens, its count at zero, at the first reading past the wait, and does nothing before. */
  lemma OpenStep(b: Breaker, e: Event)
    requires WellFormed(b.cfg) && b.state == Open
    ensures var r := Step(b, e);
            if HasNow(e) && e.now >= b.openedAt + b.cfg.wait
            then r.state == HalfOpen && r.halfOpenOK == 0 && r.halfOpenNeed == b.cfg.halfOpenPermits[0]
            else r.state == Open && r.openedAt == b.openedAt
  {
  }

  /** Half-open ends on a failure, or on a success that completes the count; it then re-closes on an empty window. */
  lemma HalfOpenStep(b: Breaker, e: Event)
    requires WellFormed(b.cfg) && b.state == HalfOpen
    ensures var r := Step(b, e);
            if !e.Record? then r.state == HalfOpen && r.halfOpenOK == b.halfOpenOK && r.halfOpenNeed == b.halfOpenNeed
            else if e.failed then r.state == Open && r.openedAt == e.now && r.log == Blank
            else if b.halfOpenOK + 1 >= b.halfOpenNeed then r.state == Closed && r.log == Blank
            else r.state == HalfOpen && r.halfOpenOK == b.halfOpenOK + 1 && r.halfOpenNeed == b.halfOpenNeed
  {
    if e.Record? {
      var settled := Settled(Judged(b, e), e.failed, e.now);
      assert Step(b, e) == Evaluated(settled, e.now);
    }
  }

  // ----- Whole runs -----

  /** Only four edges exist, whatever the event. */
  lemma OnlyFourEdges(b: Breaker, e: Event)
    requires WellFormed(b.cfg)
    ensures (b.state, Step(b, e).state) in
            {(Closed, Closed), (Open, Open), (HalfOpen, HalfOpen),
             (Closed, Open), (Open, HalfOpen), (HalfOpen, Open), (HalfOpen, Closed)}
  {
    match b.state {
      case Closed => ClosedStep(b, e);
      case Open => OpenStep(b, e);
      case HalfOpen => HalfOpenStep(b, e);
    }
  }

  /** Once opened, the breaker stays open and refuses until openedAt + wait, whatever else happens. */
  lemma {:induction false} OpenHoldsForTheWait(b: Breaker, es: seq<Event>)
    requires WellFormed(b.cfg) && b.state == Open
    requires forall e | e in es && HasNow(e) :: e.now < b.openedAt + b.cfg.wait
    ensures Run(b, es).state == Open && Run(b, es).openedAt == b.openedAt
  {
    if es != [] {
      var front, last := es[..|es| - 1], es[|es| - 1];
      forall e | e in front && HasNow(e) ensures e.now < b.openedAt + b.cfg.wait {
        assert e in es;
      }
      OpenHoldsForTheWait(b, front);
      assert last in es;
      OpenStep(Run(b, front), last);
    }
  }

  function Successes(es: seq<Event>): (n: int)
    ensures n >= 0
  {
    if es == [] then 0
    else Successes(es[..|es| - 1]) + if es[|es| - 1].Record? && !es[|es| - 1].failed then 1 else 0
  }

  predicate NoFailure(es: seq<Event>) {
    forall e | e in es && e.Record? :: !e.failed
  }

  /** Successes a half-open phase needs: the first permit, and at least one. */
  function Needed(b: Breaker): int {
    if b.halfOpenNeed >= 1 then b.halfOpenNeed else 1
  }

  /** A half-open phase without failures lasts until the needed successes, however many probes it admits. */
  lemma {:induction false} HalfOpenLastsUntilNeeded(b: Breaker, es: seq<Event>)
    requires WellFormed(b.cfg) && b.state == HalfOpen && NoFailure(es)
    requires b.halfOpenOK >= 0 && b.halfOpenOK + Successes(es) < Needed(b)
    ensures Run(b, es).state == HalfOpen
    ensures Run(b, es).halfOpenOK == b.halfOpenOK + Successes(es) && Run(b, es).halfOpenNeed == b.halfOpenNeed
  {
    if es != [] {
      var front, last := es[..|es| - 1], es[|es| - 1];
      forall e | e in front && e.Record? ensures !e.failed {
        assert e in es;
      }
      HalfOpenLastsUntilNeeded(b, front);
      assert last in es;
      HalfOpenStep(Run(b, front), last);
      assert Run(b, es) == Step(Run(b, front), last);
    }
  }

  /** It is left only on a failure, or on the success that completes the count, and then re-closes empty. */
  lemma HalfOpenEnds(b: Breaker, es: seq<Event>, e: Event)
    requires WellFormed(b.cfg) && b.state == HalfOpen && b.halfOpenOK == 0 && NoFailure(es)
    requires Successes(es) < Needed(b)
    ensures var r := Step(Run(b, es), e);
            && (r.state == Open <==> e.Record? && e.failed)
            && (r.state == Closed <==> e.Record? && !e.failed && Successes(es) + 1 == Needed(b))
            && (r.state == Closed ==> r.log == Blank)
  {
    HalfOpenLastsUntilNeeded(b, es);
    HalfOpenStep(Run(b, es), e);
  }

  // ----- When it trips -----

  /**
   * Under any configuration a trip has at least the smaller of 3 and minCalls calls, and a rate past 40% or the
   * configured one.
   */
  lemma TripNeedsEvidence(cfg: Config, recent: Counts, w: Counts)
    requires WellFormed(cfg) && TripsOn(cfg, recent, w)
    ensures w.Total() > 0 && (w.Total() >= 3 || w.Total() >= cfg.minCalls)
    ensures || AtLeast(w.failures, w.Total(), 0.4) || AtLeast(w.failures, w.Total(), cfg.failureRate)
            || AtLeast(w.slow, w.Total(), 0.4) || AtLeast(w.slow, w.Total(), cfg.slowRate)
  {
  }

  /** What the window holds when an event is judged. */
  function Judged(b: Breaker, e: Event): Breaker {
    if e.Record? then Noted(b, Outcome(e.failed, e.duration > b.cfg.slowDuration), e.now) else b
  }

  lemma OpensExactlyWhenItTrips(b: Breaker, e: Event)
    requires WellFormed(b.cfg) && b.state == Closed && HasNow(e)
    ensures Step(b, e).state == Open <==> Trips(Judged(b, e))
    ensures Trips(Judged(b, e)) <==> TripsOn(b.cfg, Recent(Judged(b, e)), Window(Judged(b, e)))
  {
    assert Step(b, e) == Evaluated(Judged(b, e), e.now);
    TripsIsTripsOn(Judged(b, e));
  }

  /** By default: at least three calls in the window, and at least 40% of them failed or at least 40% slow. */
  lemma DefaultTripNeedsThreeCalls(b: Breaker, e: Event)
    requires b.cfg == DEFAULTS && b.state == Closed && Step(b, e).state == Open
    ensures var w := Window(Judged(b, e));
            w.Total() >= 3 && (5 * w.failures >= 2 * w.Total() || 5 * w.slow >= 2 * w.Total())
  {
    ClosedStep(b, e);
    OpensExactlyWhenItTrips(b, e);
    var j := Judged(b, e);
    var w := Window(j);
    TripNeedsEvidence(b.cfg, Recent(j), w);
  }

  // ----- When it trips, in numbers -----

  /** The fractions the breaker adapts to, and the default one, on whole numbers. */
  lemma ReachesFixed(part: int, total: int)
    requires total >= 0
    ensures AtLeast(part, total, 0.4) <==> 5 * part >= 2 * total
    ensures AtLeast(part, total, 0.6) <==> 5 * part >= 3 * total
    ensures AtLeast(part, total, 0.5) <==> 2 * part >= total
  {
  }

  /** All of them reach a fraction of at most 1, and none of them reach a positive one. */
  lemma WholeReaches(total: int, rate: real)
    requires total > 0 && rate > 0.0
    ensures AtLeast(total, total, rate) <==> rate <= 1.0
    ensures !AtLeast(0, total, rate)
  {
    assert (1.0 - rate) * total as real == total as real - rate * total as real;
    assert rate * total as real > 0.0;
    if rate > 1.0 {
      assert (rate - 1.0) * total as real > 0.0;
    }
  }

  /**
   * Past 15% of failures in the last two slices three calls and 40% are enough; under 3%, with twenty calls or more,
   * it takes five and 60%; otherwise the configured numbers hold. Failures and slow calls count alike.
   */
  predicate Enough(cfg: Config, total: int, failed: int, slow: int, lately: int, failedLately: int) {
    if lately > 0 && 100 * failedLately > 15 * lately then
      total >= 3 && (5 * failed >= 2 * total || 5 * slow >= 2 * total)
    else if lately > 0 && 100 * failedLately < 3 * lately && total >= 20 then
      5 * failed >= 3 * total || 5 * slow >= 3 * total
    else
      total >= cfg.minCalls && (AtLeast(failed, total, cfg.failureRate) || AtLeast(slow, total, cfg.slowRate))
  }

  lemma TripsInNumbers(cfg: Config, recent: Counts, w: Counts, total: int, failed: int, slow: int, lately: int,
                       failedLately: int)
    requires WellFormed(cfg) && total >= 0
    requires w.successes == total - failed && w.failures == failed && w.slow == slow
    requires recent.successes == lately - failedLately && recent.failures == failedLately
    ensures TripsOn(cfg, recent, w) <==> Enough(cfg, total, failed, slow, lately, failedLately)
  {
    ReachesFixed(failed, total);
    ReachesFixed(slow, total);
  }

  /** The window and its last two slices as numbers of logged calls; a window of one slice counts it twice. */
  lemma WindowInNumbers(b: Breaker)
    requires WellFormed(b.cfg)
    ensures var (lo, hi) := (b.epoch - b.cfg.numBuckets + 1, b.epoch);
            && Window(b).successes == Calls(b.log, lo, hi) - FailedCalls(b.log, lo, hi) >= 0
            && Window(b).failures == FailedCalls(b.log, lo, hi) >= 0
            && Window(b).slow == SlowCalls(b.log, lo, hi)
    ensures var (before, now) := (if b.cfg.numBuckets == 1 then b.epoch else b.epoch - 1, b.epoch);
            && Recent(b).successes + Recent(b).failures == Calls(b.log, now, now) + Calls(b.log, before, before)
            && Recent(b).failures == FailedCalls(b.log, now, now) + FailedCalls(b.log, before, before)
  {
    var log, lo, hi := b.log, b.epoch - b.cfg.numBuckets + 1, b.epoch;
    var before := if b.cfg.numBuckets == 1 then b.epoch else b.epoch - 1;
    TallyNonNegative(log, lo, hi);
    TallyIsNumbers(log, lo, hi);
    TallyIsNumbers(log, hi, hi);
    TallyIsNumbers(log, before, before);
    assert Window(b) == Tally(log, lo, hi);
    var x, y := Tally(log, hi, hi), Tally(log, before, before);
    assert Recent(b) == Counts(x.successes + y.successes, x.failures + y.failures, x.slow + y.slow);
  }

  /**
   * When a closed breaker opens by default, on numbers of logged calls: those of the last ten slices, those of the
   * last two, and the one being recorded, slow when it took more than ten seconds.
   */
  lemma DefaultOpensExactlyWhen(b: Breaker, e: Event)
    requires b.cfg == DEFAULTS && b.state == Closed
    ensures HasNow(e) ==>
              var log := if e.Record?
                         then Logged(b.log, Entry(b.epoch, e.now, Outcome(e.failed, e.duration > 10_000_000_000)))
                         else b.log;
              var total := Calls(log, b.epoch - 9, b.epoch);
              var failed, slow := FailedCalls(log, b.epoch - 9, b.epoch), SlowCalls(log, b.epoch - 9, b.epoch);
              var lately := Calls(log, b.epoch, b.epoch) + Calls(log, b.epoch - 1, b.epoch - 1);
              var failedLately := FailedCalls(log, b.epoch, b.epoch) + FailedCalls(log, b.epoch - 1, b.epoch - 1);
              Step(b, e).state == Open <==>
                if lately > 0 && 100 * failedLately > 15 * lately then
                  total >= 3 && (5 * failed >= 2 * total || 5 * slow >= 2 * total)
                else if lately > 0 && 100 * failedLately < 3 * lately && total >= 20 then
                  5 * failed >= 3 * total || 5 * slow >= 3 * total
                else
                  total >= 5 && (2 * failed >= total || 2 * slow >= total)
    ensures e.AdvanceBucket? ==> Step(b, e).state == Closed
  {
    if HasNow(e) {
      var j := Judged(b, e);
      OpensExactlyWhenItTrips(b, e);
      TripsOnNumbers(j);
      var total := Calls(j.log, j.epoch - 9, j.epoch);
      ReachesFixed(FailedCalls(j.log, j.epoch - 9, j.epoch), total);
      ReachesFixed(SlowCalls(j.log, j.epoch - 9, j.epoch), total);
    }
  }

  lemma TripsOnNumbers(j: Breaker)
    requires WellFormed(j.cfg)
    ensures Calls(j.log, j.epoch - j.cfg.numBuckets + 1, j.epoch) >= 0
    ensures var (lo, hi) := (j.epoch - j.cfg.numBuckets + 1, j.epoch);
            var before := if j.cfg.numBuckets == 1 then j.epoch else j.epoch - 1;
            TripsOn(j.cfg, Recent(j), Window(j)) <==>
              Enough(j.cfg, Calls(j.log, lo, hi), FailedCalls(j.log, lo, hi), SlowCalls(j.log, lo, hi),
                     Calls(j.log, hi, hi) + Calls(j.log, before, before),
                     FailedCalls(j.log, hi, hi) + FailedCalls(j.log, before, before))
  {
    WindowInNumbers(j);
    var lo, hi := j.epoch - j.cfg.numBuckets + 1, j.epoch;
    var before := if j.cfg.numBuckets == 1 then j.epoch else j.epoch - 1;
    var total, failed, slow := Calls(j.log, lo, hi), FailedCalls(j.log, lo, hi), SlowCalls(j.log, lo, hi);
    var lately := Calls(j.log, hi, hi) + Calls(j.log, before, before);
    var failedLately := FailedCalls(j.log, hi, hi) + FailedCalls(j.log, before, before);
    TripsInNumbers(j.cfg, Recent(j), Window(j), total, failed, slow, lately, failedLately);
  }

  lemma TripsIsTripsOn(j: Breaker)
    requires WellFormed(j.cfg)
    ensures Trips(j) <==> TripsOn(j.cfg, Recent(j), Window(j))
  {
    if j.log == Blank {
      EmptyWindowNeverTrips(j);
    }
  }

  // ----- Runs without failed or slow calls -----

  predicate Quiet(es: seq<Event>, slowDuration: int) {
    forall e | e in es && e.Record? :: !e.failed && e.duration <= slowDuration
  }

  predicate QuietLog(log: Log) {
    match log
    case Blank => true
    case Logged(earlier, e) => !e.outcome.failed && !e.outcome.slow && QuietLog(earlier)
  }

  lemma {:induction false} QuietTally(log: Log, lo: int, hi: int)
    requires QuietLog(log)
    ensures Tally(log, lo, hi).failures == 0 && Tally(log, lo, hi).slow == 0
  {
    match log
    case Blank =>
    case Logged(earlier, _) => QuietTally(earlier, lo, hi);
  }

  lemma NothingBadNoTrip(cfg: Config, recent: Counts, window: Counts)
    requires WellFormed(cfg) && window.failures == 0 && window.slow == 0
    ensures !TripsOn(cfg, recent, window)
  {
    var t := Sensitivity(cfg, recent, window.Total());
    if window.Total() > 0 {
      assert t.failureRate * window.Total() as real > 0.0 && t.slowRate * window.Total() as real > 0.0;
    }
  }

  lemma UntrippedStep(b: Breaker, e: Event)
    requires WellFormed(b.cfg) && b.state == Closed && (HasNow(e) ==> !Trips(Judged(b, e)))
    ensures Step(b, e) == if HasNow(e) then Judged(b, e) else b.(epoch := b.epoch + 1)
  {
    if HasNow(e) {
      assert Step(b, e) == Evaluated(Judged(b, e), e.now);
    }
  }

  lemma QuietWindowNeverTrips(b: Breaker)
    requires WellFormed(b.cfg) && QuietLog(b.log)
    ensures !Trips(b)
  {
    var log, lo, hi := b.log, b.epoch - b.cfg.numBuckets + 1, b.epoch;
    QuietTally(log, lo, hi);
    assert Window(b) == Tally(log, lo, hi);
    NothingBadNoTrip(b.cfg, Recent(b), Window(b));
  }

  lemma QuietStep(c: Breaker, e: Event)
    requires WellFormed(c.cfg) && c.state == Closed && QuietLog(c.log)
    requires e.Record? ==> !e.failed && e.duration <= c.cfg.slowDuration
    ensures Step(c, e).state == Closed && QuietLog(Step(c, e).log)
  {
    QuietWindowNeverTrips(Judged(c, e));
    UntrippedStep(c, e);
  }

  /** A run with no failed and no slow call never opens, under any configuration. */
  lemma {:induction false} QuietRunNeverOpens(b: Breaker, es: seq<Event>)
    requires WellFormed(b.cfg) && b.state == Closed && QuietLog(b.log) && Quiet(es, b.cfg.slowDuration)
    ensures Run(b, es).state == Closed && QuietLog(Run(b, es).log)
  {
    if es != [] {
      var front, last := es[..|es| - 1], es[|es| - 1];
      forall e | e in front && e.Record? ensures !e.failed && e.duration <= b.cfg.slowDuration {
        assert e in es;
      }
      QuietRunNeverOpens(b, front);
      assert last in es;
      QuietStep(Run(b, front), last);
    }
  }

  /** Every entry failed, none before slice `since`. */
  predicate AllFailedSince(log: Log, since: int) {
    match log
    case Blank => true
    case Logged(earlier, e) => e.outcome.failed && since <= e.epoch && AllFailedSince(earlier, since)
  }

  lemma {:induction false} AllFailedTally(log: Log, since: int, lo: int, hi: int)
    requires AllFailedSince(log, since)
    ensures Tally(log, lo, hi).successes == 0
    ensures lo <= since && UpTo(log, hi) ==> Tally(log, lo, hi).failures == Size(log)
  {
    match log
    case Blank =>
    case Logged(earlier, _) => AllFailedTally(earlier, since, lo, hi);
  }

  lemma WindowIsAllFailures(b: Breaker, since: int)
    requires AllFailedSince(b.log, since) && UpTo(b.log, b.epoch) && since > b.epoch - b.cfg.numBuckets
    ensures Window(b).failures == Window(b).Total() == Size(b.log) >= 0
  {
    var log, lo, hi := b.log, b.epoch - b.cfg.numBuckets + 1, b.epoch;
    TallyNonNegative(log, lo, hi);
    AllFailedTally(log, since, lo, hi);
    assert Window(b) == Tally(log, lo, hi);
  }

  lemma {:induction false} SliceIsAllFailures(log: Log, since: int, at: int)
    requires AllFailedSince(log, since)
    ensures Tally(log, at, at).successes == 0 && Tally(log, at, at).failures >= 0
    ensures log.Logged? && log.latest.epoch == at ==> Tally(log, at, at).failures > 0
  {
    match log
    case Blank =>
    case Logged(earlier, _) => SliceIsAllFailures(earlier, since, at);
  }

  lemma RecentIsAllFailures(b: Breaker, since: int)
    requires AllFailedSince(b.log, since) && b.log.Logged? && b.log.latest.epoch == b.epoch
    ensures Recent(b).failures == Recent(b).Total() > 0
  {
    var log, now, before := b.log, b.epoch, if b.cfg.numBuckets == 1 then b.epoch else b.epoch - 1;
    SliceIsAllFailures(log, since, now);
    SliceIsAllFailures(log, since, before);
    var x, y := Tally(log, now, now), Tally(log, before, before);
    assert Recent(b) == Counts(x.successes + y.successes, x.failures + y.failures, x.slow + y.slow);
  }

  /** With nothing but failures in the window, the last in the current slice, it trips exactly from the third on. */
  lemma OnlyFailuresTripAtThree(b: Breaker, since: int)
    requires WellFormed(b.cfg) && AllFailedSince(b.log, since) && UpTo(b.log, b.epoch)
    requires since > b.epoch - b.cfg.numBuckets
    requires b.log.Logged? && b.log.latest.epoch == b.epoch
    ensures TripsOn(b.cfg, Recent(b), Window(b)) <==> Size(b.log) >= 3
  {
    var w, r := Window(b), Recent(b);
    WindowIsAllFailures(b, since);
    RecentIsAllFailures(b, since);
  }

  function Count(es: seq<Event>, advances: bool): (n: int)
    ensures n >= 0
  {
    if es == [] then 0
    else
      var last := es[|es| - 1];
      Count(es[..|es| - 1], advances) + if (if advances then last.AdvanceBucket? else last.Record?) then 1 else 0
  }

  predicate OnlyFailures(es: seq<Event>) {
    forall e | e in es && e.Record? :: e.failed
  }

  lemma TwoCallsNeverTrip(b: Breaker)
    requires WellFormed(b.cfg) && b.cfg.minCalls >= 3 && Window(b).Total() <= 2
    ensures !Trips(b)
  {
  }

  lemma WindowIsWithinLog(b: Breaker)
    ensures Window(b).Total() <= Size(b.log)
  {
    var log, lo, hi := b.log, b.epoch - b.cfg.numBuckets + 1, b.epoch;
    TallyNonNegative(log, lo, hi);
    assert Window(b) == Tally(log, lo, hi);
  }

  lemma FewCallsNeverTrip(b: Breaker)
    requires WellFormed(b.cfg) && b.cfg.minCalls >= 3 && Size(b.log) <= 2
    ensures !Trips(b)
  {
    WindowIsWithinLog(b);
    TwoCallsNeverTrip(b);
  }

  lemma JudgedKeepsFailures(c: Breaker, e: Event, since: int)
    requires AllFailedSince(c.log, since) && UpTo(c.log, c.epoch) && since <= c.epoch && (e.Record? ==> e.failed)
    ensures var j := Judged(c, e);
            && j.epoch == c.epoch && j.state == c.state && j.cfg == c.cfg
            && AllFailedSince(j.log, since) && UpTo(j.log, c.epoch)
  {
  }

  lemma FailureIsTolerated(c: Breaker, e: Event, since: int)
    requires WellFormed(c.cfg) && c.cfg.minCalls >= 3 && c.state == Closed
    requires AllFailedSince(c.log, since) && UpTo(c.log, c.epoch) && since <= c.epoch
    requires Size(Judged(c, e).log) <= 2 && (e.Record? ==> e.failed)
    ensures var r := Step(c, e);
            && r.state == Closed && r.log == Judged(c, e).log && r.epoch == c.epoch + (if HasNow(e) then 0 else 1)
            && AllFailedSince(r.log, since) && UpTo(r.log, r.epoch)
  {
    if HasNow(e) {
      FewCallsNeverTrip(Judged(c, e));
    } else {
      UpToLater(c.log, c.epoch, c.epoch + 1);
    }
    UntrippedStep(c, e);
    JudgedKeepsFailures(c, e, since);
  }

  /** Fewer than three failures on a fresh window, whatever reads and advances interleave, never trip it. */
  lemma {:induction false} TwoFailuresAreTolerated(b: Breaker, es: seq<Event>)
    requires WellFormed(b.cfg) && b.cfg.minCalls >= 3
    requires b.state == Closed && b.log == Blank && OnlyFailures(es) && Count(es, false) <= 2
    ensures var r := Run(b, es);
            && r.state == Closed && Size(r.log) == Count(es, false) && r.epoch == b.epoch + Count(es, true)
            && AllFailedSince(r.log, b.epoch) && UpTo(r.log, r.epoch)
  {
    if es != [] {
      var front, last := es[..|es| - 1], es[|es| - 1];
      forall e | e in front && e.Record? ensures e.failed {
        assert e in es;
      }
      TwoFailuresAreTolerated(b, front);
      assert last in es;
      FailureIsTolerated(Run(b, front), last, b.epoch);
    }
  }

  /** With nothing but failures, a breaker that is closed has been closed all along, its log whole. */
  lemma {:induction false} ClosedHasBeenClosed(b: Breaker, es: seq<Event>)
    requires WellFormed(b.cfg) && b.state == Closed && b.log == Blank && OnlyFailures(es)
    ensures var r := Run(b, es);
            r.state == Closed ==>
              && Size(r.log) == Count(es, false) && r.epoch == b.epoch + Count(es, true)
              && AllFailedSince(r.log, b.epoch) && UpTo(r.log, r.epoch)
  {
    if es != [] {
      var front, last := es[..|es| - 1], es[|es| - 1];
      forall e | e in front && e.Record? ensures e.failed {
        assert e in es;
      }
      ClosedHasBeenClosed(b, front);
      assert last in es;
      var c := Run(b, front);
      match c.state {
        case Closed => StillClosed(c, last, b.epoch);
        case Open => OpenStep(c, last);
        case HalfOpen => HalfOpenStep(c, last);
      }
    }
  }

  lemma StillClosed(c: Breaker, e: Event, since: int)
    requires WellFormed(c.cfg) && c.state == Closed && (e.Record? ==> e.failed)
    requires AllFailedSince(c.log, since) && UpTo(c.log, c.epoch) && since <= c.epoch
    ensures var r := Step(c, e);
            r.state == Closed ==>
              && r.log == Judged(c, e).log && r.epoch == c.epoch + (if HasNow(e) then 0 else 1)
              && AllFailedSince(r.log, since) && UpTo(r.log, r.epoch)
  {
    if HasNow(e) {
      OpensExactlyWhenItTrips(c, e);
    } else {
      UpToLater(c.log, c.epoch, c.epoch + 1);
    }
    if Step(c, e).state == Closed {
      UntrippedStep(c, e);
      JudgedKeepsFailures(c, e, since);
    }
  }

  /**
   * After a fresh window of failures only, a third failure leaves no breaker closed, if the window has not moved a
   * full turn: it opens one that is still closed, as it is whenever minCalls is at least 3 and this is the third.
   */
  lemma ThirdFailureOpens(b: Breaker, es: seq<Event>, duration: int, now: int)
    requires WellFormed(b.cfg) && b.state == Closed && b.log == Blank && OnlyFailures(es)
    requires Count(es, false) >= 2 && Count(es, true) < b.cfg.numBuckets
    ensures Run(b, es).state == Closed ==> Step(Run(b, es), Record(true, duration, now)).state == Open
    ensures Step(Run(b, es), Record(true, duration, now)).state != Closed
    ensures b.cfg.minCalls >= 3 && Count(es, false) == 2 ==> Run(b, es).state == Closed
  {
    var c, e := Run(b, es), Record(true, duration, now);
    ClosedHasBeenClosed(b, es);
    match c.state {
      case Closed =>
        OpensExactlyWhenItTrips(c, e);
        OnlyFailuresTripAtThree(Judged(c, e), b.epoch);
      case Open => OpenStep(c, e);
      case HalfOpen => HalfOpenStep(c, e);
    }
    if b.cfg.minCalls >= 3 && Count(es, false) == 2 {
      TwoFailuresAreTolerated(b, es);
    }
  }

  // ----- Slow calls open it too -----

  /** Every entry succeeded, but slowly; none lies before slice `since`. */
  predicate AllSlowSince(log: Log, since: int) {
    match log
    case Blank => true
    case Logged(earlier, e) =>
      !e.outcome.failed && e.outcome.slow && since <= e.epoch && AllSlowSince(earlier, since)
  }

  lemma {:induction false} AllSlowCounts(log: Log, since: int, lo: int, hi: int)
    requires AllSlowSince(log, since)
    ensures FailedCalls(log, lo, hi) == 0 && SlowCalls(log, lo, hi) == Calls(log, lo, hi)
    ensures 0 <= Calls(log, lo, hi) <= Size(log)
    ensures lo <= since && UpTo(log, hi) ==> Calls(log, lo, hi) == Size(log)
    ensures log.Logged? && lo <= log.latest.epoch <= hi ==> Calls(log, lo, hi) > 0
  {
    match log
    case Blank =>
    case Logged(earlier, _) => AllSlowCounts(earlier, since, lo, hi);
  }

  /**
   * The calls it takes: as configured, but twenty at most, for from there on 60% are enough; and twenty when the
   * configured rate is out of reach.
   */
  function SlowCallsNeeded(cfg: Config): int {
    if cfg.minCalls < 20 && cfg.slowRate <= 1.0 then cfg.minCalls else 20
  }

  lemma AllSlowTripsExactlyWhen(j: Breaker, since: int)
    requires WellFormed(j.cfg) && AllSlowSince(j.log, since) && UpTo(j.log, j.epoch)
    ensures Size(j.log) < SlowCallsNeeded(j.cfg) ==> !TripsOn(j.cfg, Recent(j), Window(j))
    ensures Size(j.log) == SlowCallsNeeded(j.cfg) && since > j.epoch - j.cfg.numBuckets ==>
              j.log.Logged? && j.log.latest.epoch == j.epoch ==> TripsOn(j.cfg, Recent(j), Window(j))
  {
    var before := if j.cfg.numBuckets == 1 then j.epoch else j.epoch - 1;
    AllSlowCounts(j.log, since, j.epoch - j.cfg.numBuckets + 1, j.epoch);
    AllSlowCounts(j.log, since, j.epoch, j.epoch);
    AllSlowCounts(j.log, since, before, before);
    TripsOnNumbers(j);
    var total := Calls(j.log, j.epoch - j.cfg.numBuckets + 1, j.epoch);
    if total > 0 {
      WholeReaches(total, j.cfg.slowRate);
      WholeReaches(total, j.cfg.failureRate);
    }
  }

  predicate OnlySlowSuccesses(es: seq<Event>, slowDuration: int) {
    forall e | e in es && e.Record? :: !e.failed && e.duration > slowDuration
  }

  lemma SlowCallIsTolerated(c: Breaker, e: Event, since: int)
    requires WellFormed(c.cfg) && c.state == Closed
    requires AllSlowSince(c.log, since) && UpTo(c.log, c.epoch) && since <= c.epoch
    requires e.Record? ==> !e.failed && e.duration > c.cfg.slowDuration
    requires Size(Judged(c, e).log) < SlowCallsNeeded(c.cfg)
    ensures var r := Step(c, e);
            && r.state == Closed && r.log == Judged(c, e).log && r.epoch == c.epoch + (if HasNow(e) then 0 else 1)
            && AllSlowSince(r.log, since) && UpTo(r.log, r.epoch)
  {
    if HasNow(e) {
      AllSlowTripsExactlyWhen(Judged(c, e), since);
    } else {
      UpToLater(c.log, c.epoch, c.epoch + 1);
    }
    UntrippedStep(c, e);
  }

  /** Fewer slow successes than it takes, whatever reads and advances interleave, leave it closed. */
  lemma {:induction false} FewSlowCallsAreTolerated(b: Breaker, es: seq<Event>)
    requires WellFormed(b.cfg) && b.state == Closed && b.log == Blank
    requires OnlySlowSuccesses(es, b.cfg.slowDuration) && Count(es, false) < SlowCallsNeeded(b.cfg)
    ensures var r := Run(b, es);
            && r.state == Closed && Size(r.log) == Count(es, false) && r.epoch == b.epoch + Count(es, true)
            && AllSlowSince(r.log, b.epoch) && UpTo(r.log, r.epoch)
  {
    if es != [] {
      var front, last := es[..|es| - 1], es[|es| - 1];
      forall e | e in front && e.Record? ensures !e.failed && e.duration > b.cfg.slowDuration {
        assert e in es;
      }
      FewSlowCallsAreTolerated(b, front);
      assert last in es;
      SlowCallIsTolerated(Run(b, front), last, b.epoch);
    }
  }

  /**
   * Successes that are all slow open a fresh window exactly at the call that makes them enough, if the window has
   * not moved a full turn.
   */
  lemma SlowSuccessesOpen(b: Breaker, es: seq<Event>, duration: int, now: int)
    requires WellFormed(b.cfg) && b.state == Closed && b.log == Blank
    requires OnlySlowSuccesses(es, b.cfg.slowDuration) && duration > b.cfg.slowDuration
    requires Count(es, false) == SlowCallsNeeded(b.cfg) - 1 && Count(es, true) < b.cfg.numBuckets
    ensures Run(b, es).state == Closed && Step(Run(b, es), Record(false, duration, now)).state == Open
  {
    var c, e := Run(b, es), Record(false, duration, now);
    FewSlowCallsAreTolerated(b, es);
    OpensExactlyWhenItTrips(c, e);
    AllSlowTripsExactlyWhen(Judged(c, e), b.epoch);
  }

  /** By default: four calls of more than ten seconds are tolerated, and the fifth opens, though none has failed. */
  lemma FifthSlowSuccessOpens(b: Breaker, es: seq<Event>, duration: int, now: int)
    requires b.cfg == DEFAULTS && b.state == Closed && b.log == Blank && duration > 10_000_000_000
    requires forall e | e in es && e.Record? :: !e.failed && e.duration > 10_000_000_000
    requires Count(es, false) <= 4 && Count(es, true) < 10
    ensures Run(b, es).state == Closed
    ensures Step(Run(b, es), Record(false, duration, now)).state == if Count(es, false) == 4 then Open else Closed
  {
    var e := Record(false, duration, now);
    FewSlowCallsAreTolerated(b, es);
    if Count(es, false) == 4 {
      SlowSuccessesOpen(b, es, duration, now);
    } else {
      SlowCallIsTolerated(Run(b, es), e, b.epoch);
    }
  }
}
