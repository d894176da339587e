/** The burn-rate monitor: two rings of five-minute buckets stepped together, and its alerts. */
module Slo {
  import opened Windows

  /** Five minutes, in nanoseconds. */
  const BUCKET_SIZE: int := 300_000_000_000
  const SHORT_BUCKETS: int := 12
  const LONG_BUCKETS: int := 36
  const RECORDS_PER_EVALUATION: int := 30

  datatype Level = Quiet | Ticket | Page

  datatype Config = Config(target: real, pageThreshold: real, ticketThreshold: real)

  datatype Alert = Alert(level: Level, reading: Reading, at: int)

  // ----- What the rings remember, by the clock -----

  /** Counts of the entries recorded at `from` or later. */
  function Since(log: Log, from: int): Counts {
    match log
    case Blank => NoCounts()
    case Logged(earlier, e) =>
      var c := Since(earlier, from);
      if e.at >= from then c.Add(e.outcome) else c
  }

  /**
   * Slices against the clock, for entries recorded when the ring had last advanced at `lastAdvance`:
   * an entry `age` slices back is more than age - 1 slice lengths old then, and, while it is in the
   * short ring, at most 2 * age. An advance drops a remainder shorter than a slice and is capped at
   * one full turn, which is why the two bounds differ.
   */
  predicate Paced(log: Log, epoch: int, lastAdvance: int) {
    match log
    case Blank => true
    case Logged(earlier, e) =>
      var age := epoch - e.epoch;
      && age >= 0
      && e.at < lastAdvance - (age - 1) * BUCKET_SIZE
      && (age < SHORT_BUCKETS ==> e.at >= lastAdvance - 2 * age * BUCKET_SIZE)
      && Paced(earlier, epoch, lastAdvance)
  }

  function Steps(elapsed: int): (s: int)
    requires elapsed >= BUCKET_SIZE
    ensures 1 <= s <= SHORT_BUCKETS
  {
    if elapsed / BUCKET_SIZE > SHORT_BUCKETS then SHORT_BUCKETS else elapsed / BUCKET_SIZE
  }

  lemma {:induction false} AdvancingKeepsPace(log: Log, epoch: int, lastAdvance: int, now: int)
    requires Paced(log, epoch, lastAdvance) && now - lastAdvance >= BUCKET_SIZE
    ensures Paced(log, epoch + Steps(now - lastAdvance), now)
  {
    match log
    case Blank =>
    case Logged(earlier, e) => AdvancingKeepsPace(earlier, epoch, lastAdvance, now);
  }

  predicate AtMost(a: Counts, b: Counts) {
    a.successes <= b.successes && a.failures <= b.failures
  }

  /**
   * At a reading within a slice of the last advance, the short ring holds all records of age up to
   * 11 slices and none of age 23 slices or more.
   */
  lemma {:induction false} ShortWindowSandwich(log: Log, epoch: int, lastAdvance: int, now: int)
    requires Paced(log, epoch, lastAdvance) && lastAdvance <= now < lastAdvance + BUCKET_SIZE
    ensures var w := Tally(log, epoch - SHORT_BUCKETS + 1, epoch);
            AtMost(Since(log, now - 11 * BUCKET_SIZE), w) && AtMost(w, Since(log, now - 23 * BUCKET_SIZE + 1))
  {
    match log
    case Blank =>
    case Logged(earlier, e) => ShortWindowSandwich(earlier, epoch, lastAdvance, now);
  }

  /** What the short window counts, the long one counts too. */
  lemma ShortWithinLong(log: Log, epoch: int)
    ensures AtMost(Tally(log, epoch - SHORT_BUCKETS + 1, epoch), Tally(log, epoch - LONG_BUCKETS + 1, epoch))
  {
    TallySplits(log, epoch - LONG_BUCKETS + 1, epoch - SHORT_BUCKETS, epoch);
    TallyNonNegative(log, epoch - LONG_BUCKETS + 1, epoch - SHORT_BUCKETS);
  }

  /** The long ring holds all records of age up to 35 slices. */
  lemma {:induction false} LongWindowReaches(log: Log, epoch: int, lastAdvance: int, now: int)
    requires Paced(log, epoch, lastAdvance) && lastAdvance <= now < lastAdvance + BUCKET_SIZE
    ensures AtMost(Since(log, now - 35 * BUCKET_SIZE), Tally(log, epoch - LONG_BUCKETS + 1, epoch))
  {
    match log
    case Blank =>
    case Logged(earlier, e) => LongWindowReaches(earlier, epoch, lastAdvance, now);
  }

  /** It has no bound on age: one gap moves it 12 of its 36 slices at most, so it keeps a record through any one gap. */
  lemma LongWindowKeepsOldRecords(o: Outcome, gap: int)
    requires gap >= BUCKET_SIZE
    ensures var log := Logged(Blank, Entry(0, 0, o));
            && Paced(log, Steps(gap), gap)
            && Tally(log, Steps(gap) - LONG_BUCKETS + 1, Steps(gap)).Total() == 1
  {
    AdvancingKeepsPace(Logged(Blank, Entry(0, 0, o)), 0, 0, gap);
  }

  // ----- Alerts -----

  function ErrorRate(c: Counts): real {
    if c.Total() > 0 then c.failures as real / c.Total() as real else 0.0
  }

  /** How many times faster than budgeted errors come in. */
  function Burned(rate: real, share: real): real {
    if share > 0.0 then rate / share else 0.0
  }

  function BurnRate(cfg: Config, short: Counts, long: Counts): real {
    Burned(WorseRate(short, long), 1.0 - cfg.target)
  }

  /** The larger of the two windows' error rates. */
  function WorseRate(short: Counts, long: Counts): real {
    if ErrorRate(short) >= ErrorRate(long) then ErrorRate(short) else ErrorRate(long)
  }

  /** The share of an error budget that is not used up. */
  function Unused(requests: int, errors: int, share: real): real {
    var budget := requests as real * share;
    var left := if budget > 0.0 then 1.0 - errors as real / budget else 1.0;
    if left < 0.0 then 0.0 else left
  }

  /** The error budget left, both windows added up. */
  function BudgetRemaining(cfg: Config, short: Counts, long: Counts): real {
    Unused(short.Total() + long.Total(), short.failures + long.failures, 1.0 - cfg.target)
  }

  function LevelOf(cfg: Config, burn: real): Level {
    if burn >= cfg.pageThreshold then Page else if burn >= cfg.ticketThreshold then Ticket else Quiet
  }

  function LastLevel(levels: seq<Level>): Level {
    if levels == [] then Quiet else levels[|levels| - 1]
  }

  /** The evaluation at `i` alerts: its level is not quiet and differs from the one before. */
  predicate Fires(levels: seq<Level>, i: nat)
    requires i < |levels|
  {
    levels[i] != Quiet && levels[i] != LastLevel(levels[..i])
  }

  lemma {:induction false} ChangeHappensSomewhere(levels: seq<Level>, i: nat, j: nat) returns (m: nat)
    requires i < j < |levels| && levels[i] != levels[j]
    ensures i < m <= j && levels[m] == levels[j] && levels[m - 1] != levels[j]
    decreases j - i
  {
    if levels[i + 1] == levels[j] {
      m := i + 1;
    } else {
      m := ChangeHappensSomewhere(levels, i + 1, j);
    }
  }

  /** Two successive alerts of the same level have a quiet evaluation between them. */
  lemma RepeatedAlertsNeedQuiet(levels: seq<Level>, i: nat, j: nat) returns (k: nat)
    requires i < j < |levels| && Fires(levels, i) && Fires(levels, j) && levels[i] == levels[j]
    requires forall m: nat | i < m < j :: !Fires(levels, m)
    ensures i < k < j && levels[k] == Quiet
  {
    k := j - 1;
    assert levels[k] == LastLevel(levels[..j]);
    if levels[k] != Quiet {
      var m := ChangeHappensSomewhere(levels, i, k);
      assert levels[m - 1] == LastLevel(levels[..m]);
      assert Fires(levels, m);
    }
  }

  /** The figures of the two windows. */
  datatype Reading = Reading(burnRate: real, errorRate: real, shortRate: real, longRate: real, budgetRemaining: real)

  function Measured(cfg: Config, short: Counts, long: Counts): Reading {
    Reading(BurnRate(cfg, short, long), WorseRate(short, long), ErrorRate(short), ErrorRate(long),
            BudgetRemaining(cfg, short, long))
  }

  /** What one evaluation makes of its figures: the level it appends, and the alert it raises if that level fires. */
  ghost predicate Evaluation(cfg: Config, r: Reading, now: int, before: seq<Level>, after: seq<Level>,
                             alerted: seq<Alert>, alerts: seq<Alert>)
  {
    && after == before + [LevelOf(cfg, r.burnRate)]
    && alerts == alerted + if Fires(after, |after| - 1) then [Alert(LastLevel(after), r, now)] else []
  }

  // ----- Levels in numbers of requests -----

  /** A window in which the share `due` or more of the requests failed; an empty one has failed none. */
  predicate FailsAtLeast(total: int, failed: int, due: real) {
    due <= 0.0 || (total > 0 && failed as real >= due * total as real)
  }

  lemma RateReaches(c: Counts, due: real)
    requires c.successes >= 0 && c.failures >= 0
    ensures ErrorRate(c) >= due <==> FailsAtLeast(c.successes + c.failures, c.failures, due)
  {
    var total := c.successes + c.failures;
    if total > 0 {
      var rate := c.failures as real / total as real;
      assert rate * total as real == c.failures as real;
      assert rate >= 0.0;
      ProductCompares(rate, due, total as real);
    }
  }

  lemma ProductCompares(x: real, y: real, z: real)
    requires z > 0.0
    ensures x >= y <==> x * z >= y * z
  {
    assert (x - y) * z == x * z - y * z;
  }

  lemma BurnReaches(rate: real, share: real, threshold: real)
    requires share > 0.0
    ensures Burned(rate, share) >= threshold <==> rate >= threshold * share
  {
    var burn := rate / share;
    assert burn * share == rate;
    ProductCompares(burn, threshold, share);
  }

  /** `threshold` times the budgeted share of errors. */
  function Due(threshold: real, target: real): real {
    threshold * (1.0 - target)
  }

  /** Errors of one window reach a share. */
  predicate Reaches(short: Counts, long: Counts, due: real) {
    || FailsAtLeast(short.successes + short.failures, short.failures, due)
    || FailsAtLeast(long.successes + long.failures, long.failures, due)
  }

  predicate Countable(c: Counts) {
    c.successes >= 0 && c.failures >= 0
  }

  lemma WorseReaches(short: Counts, long: Counts, due: real)
    requires Countable(short) && Countable(long)
    ensures WorseRate(short, long) >= due <==> Reaches(short, long, due)
  {
    RateReaches(short, due);
    RateReaches(long, due);
  }

  /**
   * Burning at `threshold` or more, with some error budget, means that in one of the two windows the errors make up
   * that many times the budgeted share.
   */
  lemma BurnInNumbers(cfg: Config, short: Counts, long: Counts, threshold: real)
    requires cfg.target < 1.0 && Countable(short) && Countable(long)
    ensures BurnRate(cfg, short, long) >= threshold <==> Reaches(short, long, Due(threshold, cfg.target))
  {
    BurnReaches(WorseRate(short, long), 1.0 - cfg.target, threshold);
    WorseReaches(short, long, Due(threshold, cfg.target));
  }

  /**
   * It pages when the errors of one window reach the page threshold, and files a ticket when only the other one;
   * without an error budget nothing burns, whatever fails.
   */
  lemma LevelInNumbers(cfg: Config, short: Counts, long: Counts)
    requires Countable(short) && Countable(long)
    ensures var level := LevelOf(cfg, Measured(cfg, short, long).burnRate);
            var (page, ticket) := (Due(cfg.pageThreshold, cfg.target), Due(cfg.ticketThreshold, cfg.target));
            if cfg.target < 1.0 then
              && (level == Page <==> Reaches(short, long, page))
              && (level == Ticket <==> !Reaches(short, long, page) && Reaches(short, long, ticket))
            else
              && (level == Page <==> cfg.pageThreshold <= 0.0)
              && (level == Ticket <==> cfg.pageThreshold > 0.0 && cfg.ticketThreshold <= 0.0)
  {
    if cfg.target < 1.0 {
      BurnInNumbers(cfg, short, long, cfg.pageThreshold);
      BurnInNumbers(cfg, short, long, cfg.ticketThreshold);
    }
  }

  /** What is left of an error budget, times the budget, is what the errors have not used. */
  lemma BudgetInNumbers(requests: int, errors: int, share: real)
    requires requests > 0 && share > 0.0
    ensures var budget := requests as real * share;
            Unused(requests, errors, share) * budget
            == if errors as real >= budget then 0.0 else budget - errors as real
  {
    var budget := requests as real * share;
    assert budget > 0.0;
    var used := errors as real / budget;
    assert used * budget == errors as real;
    ProductCompares(used, 1.0, budget);
    assert (1.0 - used) * budget == budget - used * budget;
  }

  /** An evaluation appends its level, and alerts when that is not quiet and differs from the one before. */
  lemma AlertsOnChange(cfg: Config, r: Reading, now: int, before: seq<Level>, after: seq<Level>, alerted: seq<Alert>,
                       alerts: seq<Alert>)
    requires Evaluation(cfg, r, now, before, after, alerted, alerts)
    ensures after == before + [LevelOf(cfg, r.burnRate)]
    ensures var level := LevelOf(cfg, r.burnRate);
            alerts == if level != Quiet && (before == [] || before[|before| - 1] != level)
                      then alerted + [Alert(level, r, now)] else alerted
  {
    assert after[..|after| - 1] == before;
  }

  // ----- The monitor -----

  class SLOMonitor {
    const cfg: Config
    var shortBuckets: array<Counts>
    var longBuckets: array<Counts>
    var shortIdx: nat
    var longIdx: nat
    var lastAdvance: int
    var lastBurnRate: real
    var lastAlert: Level
    var recordsSince: int
    var alerts: seq<Alert>
    ghost var log: Log
    ghost var epoch: int
    ghost var levels: seq<Level>

    /** Both rings hold what the log says of their last 12 and 36 slices. */
    ghost predicate RingsMirror()
      reads `shortBuckets, `longBuckets, `shortIdx, `longIdx, `log, `epoch, shortBuckets, longBuckets
    {
      && shortBuckets.Length == SHORT_BUCKETS && longBuckets.Length == LONG_BUCKETS
      && shortBuckets != longBuckets
      && Mirrors(shortBuckets[..], shortIdx, log, epoch)
      && Mirrors(longBuckets[..], longIdx, log, epoch)
    }

    ghost predicate Valid()
      reads this, shortBuckets, longBuckets
    {
      && RingsMirror()
      && Paced(log, epoch, lastAdvance)
      && lastAlert == LastLevel(levels)
      && 0 <= recordsSince < RECORDS_PER_EVALUATION
    }

    ghost function Short(): Counts
      reads `log, `epoch
    {
      Tally(log, epoch - SHORT_BUCKETS + 1, epoch)
    }

    ghost function Long(): Counts
      reads `log, `epoch
    {
      Tally(log, epoch - LONG_BUCKETS + 1, epoch)
    }

    constructor (cfg: Config, now: int)
      ensures Valid() && fresh(shortBuckets) && fresh(longBuckets)
      ensures this.cfg == cfg && log == Blank && levels == [] && alerts == [] && lastAdvance == now
    {
      this.cfg := cfg;
      shortBuckets := new Counts[SHORT_BUCKETS](_ => NoCounts());
      longBuckets := new Counts[LONG_BUCKETS](_ => NoCounts());
      shortIdx, longIdx, lastAdvance, lastBurnRate, lastAlert, recordsSince, alerts := 0, 0, now, 0.0, Quiet, 0, [];
      log, epoch, levels := Blank, 0, [];
      new;
      EmptyMirrors(shortBuckets[..], 0, 0);
      EmptyMirrors(longBuckets[..], 0, 0);
    }

    /** Moves both rings on by one slice and clears the bucket they move to. */
    method StepRings()
      requires RingsMirror()
      modifies this`shortIdx, this`longIdx, this`epoch, shortBuckets, longBuckets
      ensures RingsMirror() && epoch == old(epoch) + 1
    {
      ghost var short, long := shortBuckets[..], longBuckets[..];
      AdvanceMirrors(short, shortIdx, log, epoch);
      AdvanceMirrors(long, longIdx, log, epoch);
      NextIsModulo(shortIdx, shortBuckets.Length);
      NextIsModulo(longIdx, longBuckets.Length);
      shortIdx := (shortIdx + 1) % shortBuckets.Length;
      shortBuckets[shortIdx] := NoCounts();
      longIdx := (longIdx + 1) % longBuckets.Length;
      longBuckets[longIdx] := NoCounts();
      epoch := epoch + 1;
      assert shortBuckets[..] == short[shortIdx := NoCounts()];
      assert longBuckets[..] == long[longIdx := NoCounts()];
    }

    method Advance(now: int)
      requires Valid()
      modifies this`shortIdx, this`longIdx, this`lastAdvance, this`epoch, shortBuckets, longBuckets
      ensures Valid()
      ensures now - old(lastAdvance) < BUCKET_SIZE ==> lastAdvance == old(lastAdvance) && epoch == old(epoch)
      ensures now - old(lastAdvance) >= BUCKET_SIZE ==>
                lastAdvance == now && epoch == old(epoch) + Steps(now - old(lastAdvance))
    {
      var elapsed := now - lastAdvance;
      if elapsed < BUCKET_SIZE {
        return;
      }
      var steps := elapsed / BUCKET_SIZE;
      if steps > shortBuckets.Length {
        steps := shortBuckets.Length;
      }
      ghost var start := epoch;
      for i := 0 to steps
        invariant epoch == start + i && lastAdvance == old(lastAdvance)
        invariant RingsMirror()
      {
        StepRings();
      }
      AdvancingKeepsPace(log, start, lastAdvance, now);
      lastAdvance := now;
    }

    /** Error share of a window; zero when it is empty. */
    static method Rate(total: int, fails: int, ghost window: Counts) returns (rate: real)
      requires total == window.Total() && fails == window.failures
      ensures rate == ErrorRate(window)
    {
      rate := 0.0;
      if total > 0 {
        rate := fails as real / total as real;
      }
    }

    static method Burn(rate: real, share: real) returns (burn: real)
      ensures burn == Burned(rate, share)
    {
      burn := 0.0;
      if share > 0.0 {
        burn := rate / share;
      }
    }

    static method Budget(requests: int, errors: int, share: real) returns (remaining: real)
      ensures remaining == Unused(requests, errors, share)
    {
      var totalBudget := requests as real * share;
      remaining := 1.0;
      if totalBudget > 0.0 {
        remaining := 1.0 - errors as real / totalBudget;
      }
      if remaining < 0.0 {
        remaining := 0.0;
      }
    }

    method Aggregate(buckets: array<Counts>) returns (total: int, fails: int)
      ensures total == Sum(buckets[..]).Total() && fails == Sum(buckets[..]).failures
    {
      total, fails := 0, 0;
      ghost var all := buckets[..];
      for i := 0 to buckets.Length
        invariant total == Sum(all[..i]).Total() && fails == Sum(all[..i]).failures
      {
        SumOneMore(all, i);
        total := total + (buckets[i].successes + buckets[i].failures);
        fails := fails + buckets[i].failures;
      }
      assert all[..buckets.Length] == all;
    }

    /** The figures an evaluation works with, by loops over both rings. */
    method Measure() returns (r: Reading)
      requires RingsMirror()
      ensures r == Measured(cfg, Short(), Long())
    {
      var shortTotal, shortFail := Aggregate(shortBuckets);
      var longTotal, longFail := Aggregate(longBuckets);
      var shortRate := Rate(shortTotal, shortFail, Short());
      var longRate := Rate(longTotal, longFail, Long());
      var currentErrorRate := if shortRate >= longRate then shortRate else longRate;
      var budgetedErrorRate := 1.0 - cfg.target;
      var burnRate := Burn(currentErrorRate, budgetedErrorRate);
      var budgetRemaining := Budget(shortTotal + longTotal, shortFail + longFail, budgetedErrorRate);
      r := Reading(burnRate, currentErrorRate, shortRate, longRate, budgetRemaining);
    }

    /** Levels and alerts, given the figures. */
    method Judge(r: Reading, now: int)
      requires Valid()
      modifies this`lastBurnRate, this`lastAlert, this`alerts, this`levels
      ensures Valid() && lastBurnRate == r.burnRate
      ensures lastAlert == if r.burnRate >= cfg.pageThreshold then Page
                           else if r.burnRate >= cfg.ticketThreshold then Ticket
                           else Quiet
      ensures Evaluation(cfg, r, now, old(levels), levels, old(alerts), alerts)
    {
      lastBurnRate := r.burnRate;
      var level := LevelOf(cfg, r.burnRate);
      ghost var before := levels;
      levels := before + [level];
      assert levels[..|before|] == before && LastLevel(levels) == level;
      if level != Quiet && level != lastAlert {
        alerts := alerts + [Alert(level, r, now)];
      }
      lastAlert := level;
      assert RingsMirror();
    }

    method Evaluate(now: int)
      requires Valid()
      modifies this`lastBurnRate, this`lastAlert, this`alerts, this`levels
      ensures Valid()
      ensures Evaluation(cfg, Measured(cfg, Short(), Long()), now, old(levels), levels, old(alerts), alerts)
      ensures lastBurnRate == Measured(cfg, Short(), Long()).burnRate
    {
      var r := Measure();
      Judge(r, now);
    }

    /** At the reading of any record, and so of any evaluation: what the windows hold, by the clock. */
    lemma WindowsAtEvaluation(now: int)
      requires Valid() && lastAdvance <= now < lastAdvance + BUCKET_SIZE
      // All requests of the last 55 minutes, and none from 115 minutes ago or before.
      ensures AtMost(Since(log, now - 3_300_000_000_000), Short())
              && AtMost(Short(), Since(log, now - 6_899_999_999_999))
      // All requests of the last 175 minutes.
      ensures AtMost(Short(), Long()) && AtMost(Since(log, now - 10_500_000_000_000), Long())
      ensures Sum(shortBuckets[..]) == Short() && Sum(longBuckets[..]) == Long()
    {
      ShortWindowSandwich(log, epoch, lastAdvance, now);
      ShortWithinLong(log, epoch);
      LongWindowReaches(log, epoch, lastAdvance, now);
    }

    /** Adds one request to the current bucket of both rings. */
    method Count(success: bool, now: int)
      requires Valid() && lastAdvance <= now < lastAdvance + BUCKET_SIZE
      modifies this`log, shortBuckets, longBuckets
      ensures Valid()
      ensures log == Logged(old(log), Entry(epoch, now, Outcome(!success, false)))
    {
      ghost var short, long := shortBuckets[..], longBuckets[..];
      ghost var o := Outcome(!success, false);
      RecordMirrors(short, shortIdx, log, epoch, now, o);
      RecordMirrors(long, longIdx, log, epoch, now, o);
      var s, l := shortBuckets[shortIdx], longBuckets[longIdx];
      if success {
        shortBuckets[shortIdx] := s.(successes := s.successes + 1);
        longBuckets[longIdx] := l.(successes := l.successes + 1);
      } else {
        shortBuckets[shortIdx] := s.(failures := s.failures + 1);
        longBuckets[longIdx] := l.(failures := l.failures + 1);
      }
      log := Logged(log, Entry(epoch, now, o));
      assert shortBuckets[..] == short[shortIdx := s.Add(o)];
      assert longBuckets[..] == long[longIdx := l.Add(o)];
    }

    /** Counts one request; every 30 requests evaluates, on windows that obey WindowsAtEvaluation. */
    method Record(success: bool, now: int)
      requires Valid() && now >= lastAdvance
      modifies this, shortBuckets, longBuckets
      ensures Valid() && shortBuckets == old(shortBuckets) && longBuckets == old(longBuckets)
      ensures log == Logged(old(log), Entry(epoch, now, Outcome(!success, false)))
      ensures lastAdvance <= now < lastAdvance + BUCKET_SIZE
      ensures old(recordsSince) < 29 ==>
                recordsSince == old(recordsSince) + 1 && unchanged(`levels, `alerts, `lastBurnRate, `lastAlert)
      ensures old(recordsSince) == 29 ==>
                && recordsSince == 0
                && Evaluation(cfg, Measured(cfg, Short(), Long()), now, old(levels), levels, old(alerts), alerts)
                && lastBurnRate == Measured(cfg, Short(), Long()).burnRate
    {
      Advance(now);
      Count(success, now);
      if recordsSince + 1 >= RECORDS_PER_EVALUATION {
        recordsSince := 0;
        Evaluate(now);
      } else {
        recordsSince := recordsSince + 1;
      }
    }
  }
}
