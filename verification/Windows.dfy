/** Circular buckets against an event log: what a ring of per-slice counts remembers. */
module Windows {

  datatype Outcome = Outcome(failed: bool, slow: bool)

  /** A recorded outcome, the slice it was counted in and the clock reading it was recorded at. */
  datatype Entry = Entry(epoch: int, at: int, outcome: Outcome)

  /** The outcomes recorded so far, the latest last. */
  datatype Log = Blank | Logged(earlier: Log, latest: Entry)

  function Size(log: Log): int {
    match log
    case Blank => 0
    case Logged(earlier, _) => Size(earlier) + 1
  }

  /** No entry lies after slice `epoch`. */
  predicate UpTo(log: Log, epoch: int) {
    match log
    case Blank => true
    case Logged(earlier, e) => e.epoch <= epoch && UpTo(earlier, epoch)
  }

  datatype Counts = Counts(successes: int, failures: int, slow: int) {
    function Total(): int {
      successes + failures
    }

    function Add(o: Outcome): Counts {
      Counts(if o.failed then successes else successes + 1,
             if o.failed then failures + 1 else failures,
             if o.slow then slow + 1 else slow)
    }
  }

  function NoCounts(): Counts {
    Counts(0, 0, 0)
  }

  /** Counts of the entries whose slice lies in [lo, hi]. */
  function Tally(log: Log, lo: int, hi: int): Counts {
    match log
    case Blank => NoCounts()
    case Logged(earlier, e) =>
      var c := Tally(earlier, lo, hi);
      if lo <= e.epoch <= hi then c.Add(e.outcome) else c
  }

  lemma {:induction false} TallyNonNegative(log: Log, lo: int, hi: int)
    ensures var c := Tally(log, lo, hi);
            0 <= c.successes && 0 <= c.failures && 0 <= c.slow <= c.successes + c.failures <= Size(log)
  {
    match log
    case Blank =>
    case Logged(earlier, _) => TallyNonNegative(earlier, lo, hi);
  }

  /** How many entries lie in the slices from `lo` to `hi`; how many of them failed; how many were slow. */
  function Calls(log: Log, lo: int, hi: int): int {
    match log
    case Blank => 0
    case Logged(earlier, e) => Calls(earlier, lo, hi) + if lo <= e.epoch <= hi then 1 else 0
  }

  function FailedCalls(log: Log, lo: int, hi: int): int {
    match log
    case Blank => 0
    case Logged(earlier, e) => FailedCalls(earlier, lo, hi) + if lo <= e.epoch <= hi && e.outcome.failed then 1 else 0
  }

  function SlowCalls(log: Log, lo: int, hi: int): int {
    match log
    case Blank => 0
    case Logged(earlier, e) => SlowCalls(earlier, lo, hi) + if lo <= e.epoch <= hi && e.outcome.slow then 1 else 0
  }

  /** A tally is these three numbers: a call has succeeded when it has not failed, and slowness counts beside. */
  lemma {:induction false} TallyIsNumbers(log: Log, lo: int, hi: int)
    ensures var c := Tally(log, lo, hi);
            && c.successes == Calls(log, lo, hi) - FailedCalls(log, lo, hi)
            && c.failures == FailedCalls(log, lo, hi)
            && c.slow == SlowCalls(log, lo, hi)
  {
    match log
    case Blank =>
    case Logged(earlier, _) => TallyIsNumbers(earlier, lo, hi);
  }

  function Sum(buckets: seq<Counts>): Counts {
    if buckets == [] then NoCounts()
    else
      var c, last := Sum(buckets[..|buckets| - 1]), buckets[|buckets| - 1];
      Counts(c.successes + last.successes, c.failures + last.failures, c.slow + last.slow)
  }

  lemma SumOneMore(buckets: seq<Counts>, i: nat)
    requires i < |buckets|
    ensures var before, after := Sum(buckets[..i]), Sum(buckets[..i + 1]);
            && after.successes == before.successes + buckets[i].successes
            && after.failures == before.failures + buckets[i].failures
            && after.slow == before.slow + buckets[i].slow
  {
    assert buckets[..i + 1][..i] == buckets[..i];
  }

  /** The index of the bucket `age` slices back from the current one. */
  function Slot(current: nat, age: nat, n: nat): (i: nat)
    requires current < n && age < n
    ensures i < n
  {
    if age <= current then current - age else current + n - age
  }

  function Next(current: nat, n: nat): (i: nat)
    requires current < n
    ensures i < n && i == Slot(current, n - 1, n)
  {
    if current + 1 < n then current + 1 else 0
  }

  lemma NextIsModulo(current: nat, n: nat)
    requires current < n
    ensures Next(current, n) == (current + 1) % n
  {
    if current + 1 == n {
      assert (current + 1) % n == 0;
    }
  }

  /** The buckets hold, slice by slice and in total, exactly the log's last `|buckets|` slices. */
  ghost predicate Mirrors(buckets: seq<Counts>, current: nat, log: Log, epoch: int) {
    && current < |buckets|
    && (forall age | 0 <= age < |buckets| ::
          buckets[Slot(current, age, |buckets|)] == Tally(log, epoch - age, epoch - age))
    && Sum(buckets) == Tally(log, epoch - |buckets| + 1, epoch)
    && UpTo(log, epoch)
  }

  lemma {:induction false} SumAfterUpdate(buckets: seq<Counts>, i: nat, c: Counts)
    requires i < |buckets|
    ensures var before, after := Sum(buckets), Sum(buckets[i := c]);
            && after.successes + buckets[i].successes == before.successes + c.successes
            && after.failures + buckets[i].failures == before.failures + c.failures
            && after.slow + buckets[i].slow == before.slow + c.slow
  {
    var front := buckets[..|buckets| - 1];
    if i == |buckets| - 1 {
      assert buckets[i := c][..i] == front;
    } else {
      SumAfterUpdate(front, i, c);
      assert buckets[i := c][..|buckets| - 1] == front[i := c];
    }
  }

  lemma {:induction false} SumOfZeros(buckets: seq<Counts>)
    requires forall c | c in buckets :: c == NoCounts()
    ensures Sum(buckets) == NoCounts()
  {
    if buckets != [] {
      var front := buckets[..|buckets| - 1];
      assert buckets[|buckets| - 1] in buckets;
      forall c | c in front ensures c == NoCounts() {
        assert c in buckets;
      }
      SumOfZeros(front);
    }
  }

  lemma {:induction false} TallySplits(log: Log, lo: int, mid: int, hi: int)
    requires lo <= mid + 1 && mid <= hi
    ensures var whole, left, right := Tally(log, lo, hi), Tally(log, lo, mid), Tally(log, mid + 1, hi);
            && whole.successes == left.successes + right.successes
            && whole.failures == left.failures + right.failures
            && whole.slow == left.slow + right.slow
  {
    match log
    case Blank =>
    case Logged(earlier, _) => TallySplits(earlier, lo, mid, hi);
  }

  lemma {:induction false} TallyOfFuture(log: Log, lo: int, hi: int)
    requires UpTo(log, lo - 1)
    ensures Tally(log, lo, hi) == NoCounts()
  {
    match log
    case Blank =>
    case Logged(earlier, _) => TallyOfFuture(earlier, lo, hi);
  }

  lemma {:induction false} UpToLater(log: Log, epoch: int, later: int)
    requires UpTo(log, epoch) && epoch <= later
    ensures UpTo(log, later)
  {
    match log
    case Blank =>
    case Logged(earlier, _) => UpToLater(earlier, epoch, later);
  }

  lemma EmptyMirrors(buckets: seq<Counts>, current: nat, epoch: int)
    requires current < |buckets| && forall c | c in buckets :: c == NoCounts()
    ensures Mirrors(buckets, current, Blank, epoch)
  {
    SumOfZeros(buckets);
    forall age | 0 <= age < |buckets| ensures buckets[Slot(current, age, |buckets|)] == NoCounts() {
      assert buckets[Slot(current, age, |buckets|)] in buckets;
    }
  }

  lemma RecordMirrors(buckets: seq<Counts>, current: nat, log: Log, epoch: int, at: int,
                      o: Outcome)
    requires Mirrors(buckets, current, log, epoch)
    ensures Mirrors(buckets[current := buckets[current].Add(o)], current, Logged(log, Entry(epoch, at, o)), epoch)
  {
    var n := |buckets|;
    var grown := Logged(log, Entry(epoch, at, o));
    assert buckets[Slot(current, 0, n)] == Tally(log, epoch, epoch);
    forall age | 0 <= age < n
      ensures buckets[current := buckets[current].Add(o)][Slot(current, age, n)]
              == Tally(grown, epoch - age, epoch - age)
    {
      assert buckets[Slot(current, age, n)] == Tally(log, epoch - age, epoch - age);
    }
    SumAfterUpdate(buckets, current, buckets[current].Add(o));
  }

  lemma AdvanceMirrors(buckets: seq<Counts>, current: nat, log: Log, epoch: int)
    requires Mirrors(buckets, current, log, epoch)
    ensures Mirrors(buckets[Next(current, |buckets|) := NoCounts()], Next(current, |buckets|), log, epoch + 1)
  {
    var n := |buckets|;
    var next := Next(current, n);
    var cleared := buckets[next := NoCounts()];
    TallyOfFuture(log, epoch + 1, epoch + 1);
    UpToLater(log, epoch, epoch + 1);
    forall age | 0 <= age < n
      ensures cleared[Slot(next, age, n)] == Tally(log, epoch + 1 - age, epoch + 1 - age)
    {
      if age > 0 {
        assert Slot(next, age, n) == Slot(current, age - 1, n);
      }
    }
    // The bucket cleared is the oldest slice.
    var oldest := Tally(log, epoch - n + 1, epoch - n + 1);
    assert buckets[Slot(current, n - 1, n)] == oldest;
    assert Sum(cleared) == Tally(log, epoch + 1 - n + 1, epoch + 1) by {
      SumAfterUpdate(buckets, next, NoCounts());
      TallySplits(log, epoch - n + 1, epoch - n + 1, epoch);
      TallySplits(log, epoch - n + 2, epoch, epoch + 1);
    }
  }
}
