/** Choosing a provider: the eligible pool, the fallback chain, and the weighted draw within the best tier. */
module Routing {
  import opened Wrappers

  datatype Health = Health(healthy: bool, latencyMs: int)

  /**
   * What routing sees of a provider. `weight` and `price` come from its configuration;
   * a provider without one has weight 0 and no price.
   */
  datatype Snapshot = Snapshot(name: string, active: bool, keyConfigured: bool, circuitOpen: bool, priority: int,
                               weight: int, price: Option<real>, health: Option<Health>)

  // ----- Scores -----

  function Weight(p: Snapshot): real {
    if p.weight <= 0 then 1.0 else p.weight as real
  }

  function HealthFactor(p: Snapshot): real {
    if p.health.Some? && !p.health.value.healthy then 0.1 else 1.0
  }

  function LatencyFactor(p: Snapshot): real {
    if p.health.Some? && p.health.value.latencyMs > 0 then
      var lat := 1.0 - p.health.value.latencyMs as real / 5000.0;
      if lat < 0.05 then 0.05 else if lat > 1.0 then 1.0 else lat
    else 1.0
  }

  function CostFactor(p: Snapshot, minInput: real): real {
    if minInput > 0.0 && p.price.Some? && p.price.value > 0.0 then
      var c := minInput / p.price.value;
      if c < 0.1 then 0.1 else if c > 1.0 then 1.0 else c
    else 1.0
  }

  function Scaled(x: real, factor: real): real {
    x * factor
  }

  function EffectiveWeight(p: Snapshot, minInput: real): real {
    Scaled(Scaled(Scaled(Weight(p), HealthFactor(p)), LatencyFactor(p)), CostFactor(p, minInput))
  }

  lemma ProductIsNonNegative(x: real, y: real)
    requires x >= 0.0 && y >= 0.0
    ensures x * y >= 0.0
  {
  }

  lemma Scales(x: real, low: real, factor: real)
    requires x >= 0.0 && 0.0 <= low <= factor <= 1.0
    ensures x * low <= Scaled(x, factor) <= x && Scaled(x, factor) >= 0.0
  {
    ProductIsNonNegative(x, low);
    ProductIsNonNegative(x, factor - low);
    ProductIsNonNegative(x, 1.0 - factor);
    assert x * (factor - low) == x * factor - x * low;
    assert x * (1.0 - factor) == x - x * factor;
  }

  /** A score keeps at least a 2000th of the weight, whatever health, latency and cost say, and at most all of it. */
  lemma ScoreIsWithin(p: Snapshot, minInput: real)
    ensures Weight(p) / 2000.0 <= EffectiveWeight(p, minInput) <= Weight(p)
    ensures Weight(p) >= 1.0
  {
    var x := Scaled(Weight(p), HealthFactor(p));
    var y := Scaled(x, LatencyFactor(p));
    Scales(Weight(p), 0.1, HealthFactor(p));
    Scales(x, 0.05, LatencyFactor(p));
    Scales(y, 0.1, CostFactor(p, minInput));
  }

  /**
   * A score in numbers: the weight, at least one; a tenth of it for an unhealthy provider; what is left of five
   * seconds after the latency, a twentieth at least; and the cheapest price over its own, a tenth at least.
   */
  lemma ScoreInNumbers(p: Snapshot, minInput: real)
    ensures var weight := if p.weight >= 1 then p.weight as real else 1.0;
            var health := if p.health.Some? && !p.health.value.healthy then 0.1 else 1.0;
            var slow := p.health.Some? && p.health.value.latencyMs > 0;
            var latency := if !slow then 1.0
                           else if p.health.value.latencyMs >= 4750 then 0.05
                           else 1.0 - p.health.value.latencyMs as real / 5000.0;
            var cost := if minInput <= 0.0 || p.price.None? || p.price.value <= minInput then 1.0
                        else if p.price.value >= 10.0 * minInput then 0.1
                        else minInput / p.price.value;
            EffectiveWeight(p, minInput) == Scaled(Scaled(Scaled(weight, health), latency), cost)
  {
    if minInput > 0.0 && p.price.Some? && p.price.value > 0.0 {
      var c := minInput / p.price.value;
      assert c * p.price.value == minInput;
      QuotientCompares(c, p.price.value, minInput, 1.0);
      QuotientCompares(c, p.price.value, minInput, 0.1);
    }
  }

  lemma SignOfProduct(x: real, y: real)
    requires y > 0.0
    ensures x > 0.0 <==> x * y > 0.0
    ensures x == 0.0 <==> x * y == 0.0
  {
    if x > 0.0 {
      assert x * y > 0.0;
    } else if x < 0.0 {
      assert x * y < 0.0;
    }
  }

  lemma QuotientCompares(c: real, price: real, least: real, t: real)
    requires price > 0.0 && c * price == least
    ensures c > t <==> least > t * price
    ensures c == t <==> least == t * price
  {
    SignOfProduct(c - t, price);
    assert (c - t) * price == least - t * price;
  }

  lemma ScalingIsMonotone(x: real, y: real, f: real, g: real)
    requires x >= y >= 0.0 && f >= g >= 0.0
    ensures Scaled(x, f) >= Scaled(y, g) >= 0.0
  {
    ProductIsNonNegative(x - y, f);
    ProductIsNonNegative(y, f - g);
    ProductIsNonNegative(y, g);
    assert x * f == y * f + (x - y) * f && y * f == y * g + y * (f - g);
  }

  /** A provider at least as good in weight, health, latency and price scores at least as high. */
  lemma BetterScoresNoLess(p: Snapshot, q: Snapshot, minInput: real)
    requires p.weight >= q.weight && p.health.Some? && q.health.Some?
    requires !q.health.value.healthy || p.health.value.healthy
    requires p.health.value.latencyMs <= q.health.value.latencyMs
    requires p.price.None? || p.price.value <= 0.0 || (q.price.Some? && p.price.value <= q.price.value)
    ensures EffectiveWeight(p, minInput) >= EffectiveWeight(q, minInput)
  {
    if minInput > 0.0 && p.price.Some? && p.price.value > 0.0 {
      CheaperFactor(p.price.value, q.price.value, minInput);
    }
    ScalingIsMonotone(Weight(p), Weight(q), HealthFactor(p), HealthFactor(q));
    ScalingIsMonotone(Scaled(Weight(p), HealthFactor(p)), Scaled(Weight(q), HealthFactor(q)),
                      LatencyFactor(p), LatencyFactor(q));
    ScalingIsMonotone(Scaled(Scaled(Weight(p), HealthFactor(p)), LatencyFactor(p)),
                      Scaled(Scaled(Weight(q), HealthFactor(q)), LatencyFactor(q)),
                      CostFactor(p, minInput), CostFactor(q, minInput));
  }

  lemma CheaperFactor(x: real, y: real, least: real)
    requires 0.0 < x <= y && least > 0.0
    ensures least / x >= least / y
  {
    var a, b := least / x, least / y;
    assert a * x == least && b * y == least;
    SignOfProduct(b, y);
    ProductIsNonNegative(y - x, b);
    assert (a - b) * x == b * y - b * x == (y - x) * b;
    SignOfProduct(b - a, x);
    assert (b - a) * x == -((a - b) * x);
  }

  predicate Priced(p: Snapshot) {
    p.price.Some? && p.price.value > 0.0
  }

  /** The cheapest positive price, or 0 when there is none. */
  predicate IsMinPrice(ps: seq<Snapshot>, m: real) {
    if exists p :: p in ps && Priced(p) then
      (exists p :: p in ps && Priced(p) && p.price.value == m) && forall p | p in ps && Priced(p) :: m <= p.price.value
    else m == 0.0
  }

  method MinInputPrice(ps: seq<Snapshot>) returns (m: real)
    ensures IsMinPrice(ps, m)
  {
    m := 0.0;
    var found := false;
    for i := 0 to |ps|
      invariant found <==> exists p :: p in ps[..i] && Priced(p)
      invariant IsMinPrice(ps[..i], m)
    {
      var p := ps[i];
      assert ps[..i + 1] == ps[..i] + [p];
      if p.price.None? || p.price.value <= 0.0 {
        continue;
      }
      assert p in ps[..i + 1] && Priced(p);
      if !found || p.price.value < m {
        m := p.price.value;
        found := true;
      }
    }
    assert ps[..|ps|] == ps;
  }

  predicate SameMembers<T(==)>(a: seq<T>, b: seq<T>) {
    (forall x | x in a :: x in b) && (forall x | x in b :: x in a)
  }

  lemma MinPriceIsUnique(a: seq<Snapshot>, b: seq<Snapshot>, m: real, n: real)
    requires SameMembers(a, b) && IsMinPrice(a, m) && IsMinPrice(b, n)
    ensures m == n
  {
    if p :| p in a && Priced(p) {
      assert p in b;
      var q :| q in a && Priced(q) && q.price.value == m;
      var r :| r in b && Priced(r) && r.price.value == n;
      assert q in b && r in a;
    } else {
      assert forall q | q in b :: q in a;
    }
  }

  // ----- The pool -----

  predicate Eligible(pool: map<string, bool>, p: Snapshot) {
    p.active && p.keyConfigured && (|pool| > 0 ==> p.name in pool && pool[p.name])
  }

  function Filtered(ps: seq<Snapshot>, keep: Snapshot -> bool): seq<Snapshot> {
    if ps == [] then []
    else
      var before, p := Filtered(ps[..|ps| - 1], keep), ps[|ps| - 1];
      if keep(p) then before + [p] else before
  }

  predicate DistinctNames(ps: seq<Snapshot>) {
    forall i, j | 0 <= i < j < |ps| :: ps[i].name != ps[j].name
  }

  lemma SameNameSameIndex(ps: seq<Snapshot>, i: int, j: int)
    requires DistinctNames(ps) && 0 <= i < |ps| && 0 <= j < |ps| && ps[i].name == ps[j].name
    ensures i == j
  {
  }

  lemma {:induction false} FilteredKeeps(ps: seq<Snapshot>, keep: Snapshot -> bool)
    ensures forall p :: p in Filtered(ps, keep) <==> p in ps && keep(p)
    ensures DistinctNames(ps) ==> DistinctNames(Filtered(ps, keep))
  {
    if ps != [] {
      var front, p := ps[..|ps| - 1], ps[|ps| - 1];
      FilteredKeeps(front, keep);
      assert ps == front + [p];
      assert DistinctNames(ps) ==> forall q | q in front :: q.name != p.name;
      forall q ensures q in Filtered(ps, keep) <==> q in ps && keep(q) {
        assert q in ps <==> q in front || q == p;
      }
      assert forall i | 0 <= i < |Filtered(front, keep)| :: Filtered(front, keep)[i] in Filtered(front, keep);
    }
  }

  function InPool(pool: map<string, bool>): Snapshot -> bool {
    (p: Snapshot) => Eligible(pool, p)
  }

  /** Active providers with a key, restricted to the routing pool unless it is empty. */
  method PoolEligible(list: seq<Snapshot>, pool: map<string, bool>) returns (out: seq<Snapshot>)
    ensures out == Filtered(list, InPool(pool))
  {
    var inPool := |pool| > 0;
    out := [];
    assert list[..|list|] == list;
    for i := 0 to |list|
      invariant out == Filtered(list[..i], InPool(pool))
    {
      assert list[..i + 1][..i] == list[..i];
      var p := list[i];
      if !p.active || !p.keyConfigured {
        continue;
      }
      if inPool && !(p.name in pool && pool[p.name]) {
        continue;
      }
      out := out + [p];
    }
  }

  // ----- Order -----

  /** What candidates are compared by. */
  datatype Key = Key(circuitOpen: bool, priority: int, score: real, name: string)

  predicate LexLess(a: string, b: string)
    decreases |a|
  {
    b != "" && (a == "" || a[0] < b[0] || (a[0] == b[0] && LexLess(a[1..], b[1..])))
  }

  lemma {:induction false} LexIsTotal(a: string, b: string)
    ensures a != b ==> LexLess(a, b) || LexLess(b, a)
    ensures !(LexLess(a, b) && LexLess(b, a))
    decreases |a|
  {
    if a != "" && b != "" {
      LexIsTotal(a[1..], b[1..]);
      assert a == [a[0]] + a[1..] && b == [b[0]] + b[1..];
    }
  }

  lemma {:induction false} LexIsTransitive(a: string, b: string, c: string)
    requires LexLess(a, b) && LexLess(b, c)
    ensures LexLess(a, c)
    decreases |a|
  {
    if a != "" && a[0] == b[0] && b[0] == c[0] {
      LexIsTransitive(a[1..], b[1..], c[1..]);
    }
  }

  /** Closed circuits first, then higher priority, then higher score, then name. */
  predicate KeyLess(a: Key, b: Key) {
    if a.circuitOpen != b.circuitOpen then !a.circuitOpen
    else if a.priority != b.priority then a.priority > b.priority
    else if a.score != b.score then a.score > b.score
    else LexLess(a.name, b.name)
  }

  lemma KeyLessIsTotal(a: Key, b: Key)
    ensures a != b ==> KeyLess(a, b) || KeyLess(b, a)
    ensures !(KeyLess(a, b) && KeyLess(b, a))
  {
    LexIsTotal(a.name, b.name);
  }

  lemma KeyLessIsTransitive(a: Key, b: Key, c: Key)
    requires KeyLess(a, b) && KeyLess(b, c)
    ensures KeyLess(a, c)
  {
    if LexLess(a.name, b.name) && LexLess(b.name, c.name) {
      LexIsTransitive(a.name, b.name, c.name);
    }
  }

  predicate Sorted(ks: seq<Key>) {
    forall i, j | 0 <= i < j < |ks| :: KeyLess(ks[i], ks[j])
  }

  function Inserted(k: Key, ks: seq<Key>): seq<Key>
    decreases |ks|
  {
    if ks == [] || KeyLess(k, ks[0]) then [k] + ks else [ks[0]] + Inserted(k, ks[1..])
  }

  /** The library's sort: for distinct keys there is only one sorted arrangement. */
  function SortedKeys(ks: seq<Key>): seq<Key>
    decreases |ks|
  {
    if ks == [] then [] else Inserted(ks[0], SortedKeys(ks[1..]))
  }

  lemma {:induction false} InsertedSorts(k: Key, ks: seq<Key>)
    requires Sorted(ks) && k !in ks
    ensures Sorted(Inserted(k, ks))
    ensures forall x :: x in Inserted(k, ks) <==> x == k || x in ks
    decreases |ks|
  {
    if ks == [] {
    } else if KeyLess(k, ks[0]) {
      forall j | 0 <= j < |ks| ensures KeyLess(k, ks[j]) {
        if j > 0 {
          KeyLessIsTransitive(k, ks[0], ks[j]);
        }
      }
    } else {
      var tail := Inserted(k, ks[1..]);
      InsertedSorts(k, ks[1..]);
      KeyLessIsTotal(k, ks[0]);
      forall j | 0 <= j < |tail| ensures KeyLess(ks[0], tail[j]) {
        assert tail[j] in tail;
        if tail[j] != k {
          var i :| 0 <= i < |ks[1..]| && ks[1..][i] == tail[j];
          assert ks[i + 1] == tail[j];
        }
      }
      forall x ensures x in Inserted(k, ks) <==> x == k || x in ks {
        assert x in ks <==> x == ks[0] || x in ks[1..];
      }
    }
  }

  predicate DistinctKeys(ks: seq<Key>) {
    forall i, j | 0 <= i < j < |ks| :: ks[i] != ks[j]
  }

  lemma {:induction false} SortSorts(ks: seq<Key>)
    requires DistinctKeys(ks)
    ensures Sorted(SortedKeys(ks)) && SameMembers(SortedKeys(ks), ks)
    decreases |ks|
  {
    if ks != [] {
      SortSorts(ks[1..]);
      assert ks[0] !in ks[1..];
      InsertedSorts(ks[0], SortedKeys(ks[1..]));
      assert forall x :: x in ks <==> x == ks[0] || x in ks[1..];
    }
  }

  /** Members that are sorted can be arranged in one way only. */
  lemma {:induction false} SortedIsUnique(a: seq<Key>, b: seq<Key>)
    requires Sorted(a) && Sorted(b) && SameMembers(a, b)
    ensures a == b
    decreases |a|
  {
    if a == [] {
      if b != [] {
        HeadsAgree(b, a);
      }
    } else {
      HeadsAgree(a, b);
      TailsAgree(a, b);
      SortedIsUnique(a[1..], b[1..]);
      assert a == [a[0]] + a[1..] && b == [b[0]] + b[1..];
    }
  }

  lemma HeadsAgree(a: seq<Key>, b: seq<Key>)
    requires Sorted(a) && Sorted(b) && SameMembers(a, b) && a != []
    ensures b != [] && a[0] == b[0]
  {
    assert a[0] in b && b[0] in a;
    KeyLessIsTotal(a[0], b[0]);
  }

  lemma TailsAgree(a: seq<Key>, b: seq<Key>)
    requires Sorted(a) && Sorted(b) && SameMembers(a, b) && a != [] && b != [] && a[0] == b[0]
    ensures SameMembers(a[1..], b[1..])
  {
    KeyLessIsTotal(a[0], a[0]);
    assert a[0] !in a[1..] && b[0] !in b[1..];
    assert forall x :: x in a <==> x == a[0] || x in a[1..];
    assert forall x :: x in b <==> x == b[0] || x in b[1..];
  }

  // ----- The fallback chain -----

  function KeyOf(p: Snapshot, minInput: real): Key {
    Key(p.circuitOpen, p.priority, EffectiveWeight(p, minInput), p.name)
  }

  function Keys(ps: seq<Snapshot>, minInput: real): (ks: seq<Key>)
    ensures |ks| == |ps| && forall i | 0 <= i < |ks| :: ks[i] == KeyOf(ps[i], minInput)
  {
    seq(|ps|, i requires 0 <= i < |ps| => KeyOf(ps[i], minInput))
  }

  function Names(ks: seq<Key>): (ns: seq<string>)
    ensures |ns| == |ks| && forall i | 0 <= i < |ns| :: ns[i] == ks[i].name
  {
    seq(|ks|, i requires 0 <= i < |ks| => ks[i].name)
  }

  /** `chain` is the preference order over the eligible providers of `list`. */
  ghost predicate IsChain(list: seq<Snapshot>, pool: map<string, bool>, chain: seq<string>) {
    var eligible := Filtered(list, InPool(pool));
    exists m :: IsMinPrice(eligible, m) && chain == Names(SortedKeys(Keys(eligible, m)))
  }

  method RoutingCandidates(list: seq<Snapshot>, pool: map<string, bool>) returns (chain: seq<string>)
    ensures IsChain(list, pool, chain)
  {
    var eligible := PoolEligible(list, pool);
    var minInput := MinInputPrice(eligible);
    chain := Names(SortedKeys(Keys(eligible, minInput)));
  }

  lemma KeysAreDistinct(ps: seq<Snapshot>, m: real)
    requires DistinctNames(ps)
    ensures DistinctKeys(Keys(ps, m))
  {
    forall i, j | 0 <= i < j < |ps| ensures Keys(ps, m)[i] != Keys(ps, m)[j] {
      assert Keys(ps, m)[i].name == ps[i].name && Keys(ps, m)[j].name == ps[j].name;
    }
  }

  lemma SameKeys(a: seq<Snapshot>, b: seq<Snapshot>, m: real)
    requires forall p | p in a :: p in b
    ensures forall k | k in Keys(a, m) :: k in Keys(b, m)
  {
    forall k | k in Keys(a, m) ensures k in Keys(b, m) {
      var i :| 0 <= i < |a| && Keys(a, m)[i] == k;
      assert a[i] in a;
      var j :| 0 <= j < |b| && b[j] == a[i];
      assert Keys(b, m)[j] == k;
    }
  }

  /** The chain does not depend on the order in which the providers are listed. */
  lemma ChainIgnoresListOrder(a: seq<Snapshot>, b: seq<Snapshot>, pool: map<string, bool>, x: seq<string>,
                              y: seq<string>)
    requires DistinctNames(a) && DistinctNames(b) && SameMembers(a, b)
    requires IsChain(a, pool, x) && IsChain(b, pool, y)
    ensures x == y
  {
    var keep := InPool(pool);
    var ea, eb := Filtered(a, keep), Filtered(b, keep);
    var m :| IsMinPrice(ea, m) && x == Names(SortedKeys(Keys(ea, m)));
    var n :| IsMinPrice(eb, n) && y == Names(SortedKeys(Keys(eb, n)));
    FilteredKeeps(a, keep);
    FilteredKeeps(b, keep);
    MinPriceIsUnique(ea, eb, m, n);
    SortedSame(ea, eb, m);
  }

  lemma SortedSame(a: seq<Snapshot>, b: seq<Snapshot>, m: real)
    requires DistinctNames(a) && DistinctNames(b) && SameMembers(a, b)
    ensures SortedKeys(Keys(a, m)) == SortedKeys(Keys(b, m))
  {
    KeysAreDistinct(a, m);
    KeysAreDistinct(b, m);
    SortSorts(Keys(a, m));
    SortSorts(Keys(b, m));
    SameKeys(a, b, m);
    SameKeys(b, a, m);
    SortedIsUnique(SortedKeys(Keys(a, m)), SortedKeys(Keys(b, m)));
  }

  /** Listed under the name is an active provider with a key, in the pool unless that is empty. */
  predicate Offers(list: seq<Snapshot>, pool: map<string, bool>, name: string) {
    exists p :: p in list && p.name == name
                && p.active && p.keyConfigured && (pool == map[] || (name in pool && pool[name]))
  }

  /** The chain holds each eligible provider once and nothing else. */
  lemma ChainIsTheEligible(list: seq<Snapshot>, pool: map<string, bool>, chain: seq<string>)
    requires DistinctNames(list) && IsChain(list, pool, chain)
    ensures forall name: string :: name in chain <==> Offers(list, pool, name)
    ensures forall i, j | 0 <= i < j < |chain| :: chain[i] != chain[j]
  {
    var eligible := Filtered(list, InPool(pool));
    var m :| IsMinPrice(eligible, m) && chain == Names(SortedKeys(Keys(eligible, m)));
    FilteredKeeps(list, InPool(pool));
    KeysAreDistinct(eligible, m);
    SortSorts(Keys(eligible, m));
    var ks := SortedKeys(Keys(eligible, m));
    forall name: string ensures name in chain <==> Offers(list, pool, name) {
      if name in chain {
        var i :| 0 <= i < |ks| && ks[i].name == name;
        assert ks[i] in Keys(eligible, m);
        var j :| 0 <= j < |eligible| && Keys(eligible, m)[j] == ks[i];
        assert eligible[j] in eligible;
      }
      if p :| p in list && Eligible(pool, p) && p.name == name {
        assert p in eligible;
        KeyIsListed(eligible, m, p);
        var i :| 0 <= i < |ks| && ks[i] == KeyOf(p, m);
        assert chain[i] == name;
      }
    }
    forall i, j | 0 <= i < j < |chain| ensures chain[i] != chain[j] {
      SameNameSameKey(eligible, m, ks[i], ks[j]);
      KeyLessIsTotal(ks[i], ks[j]);
    }
  }

  /** One text before another: a proper beginning of it, or smaller at the first place where they differ. */
  lemma {:induction false} LexLessIs(a: string, b: string, k: nat)
    requires k <= |a| && k <= |b| && a[..k] == b[..k]
    requires k < |a| && k < |b| ==> a[k] != b[k]
    ensures LexLess(a, b) <==> k < |b| && (k == |a| || a[k] < b[k])
    decreases k
  {
    if k > 0 {
      assert a[0] == a[..k][0] == b[..k][0] == b[0];
      assert a[1..][..k - 1] == a[..k][1..] && b[1..][..k - 1] == b[..k][1..];
      LexLessIs(a[1..], b[1..], k - 1);
    }
  }

  /**
   * The chain's order, in the providers' own fields: whoever stands earlier has the better circuit; or the same and a
   * higher priority; or both the same and a higher score; or all the same and the smaller name.
   */
  lemma ChainOrderInFields(list: seq<Snapshot>, pool: map<string, bool>, chain: seq<string>, i: nat, j: nat,
                           p: Snapshot, q: Snapshot) returns (m: real)
    requires DistinctNames(list) && IsChain(list, pool, chain) && i < j < |chain|
    requires p in list && q in list && p.name == chain[i] && q.name == chain[j]
    ensures IsMinPrice(Filtered(list, InPool(pool)), m)
    ensures var (x, y) := (EffectiveWeight(p, m), EffectiveWeight(q, m));
            || (!p.circuitOpen && q.circuitOpen)
            || (p.circuitOpen == q.circuitOpen && p.priority > q.priority)
            || (p.circuitOpen == q.circuitOpen && p.priority == q.priority && x > y)
            || (p.circuitOpen == q.circuitOpen && p.priority == q.priority && x == y && LexLess(p.name, q.name))
  {
    var eligible := Filtered(list, InPool(pool));
    m :| IsMinPrice(eligible, m) && chain == Names(SortedKeys(Keys(eligible, m)));
    var ks := SortedKeys(Keys(eligible, m));
    FilteredKeeps(list, InPool(pool));
    KeysAreDistinct(eligible, m);
    SortSorts(Keys(eligible, m));
    assert ks[i] in ks && ks[j] in ks;
    HeadIsEligible(list, eligible, m, ks[i], p);
    HeadIsEligible(list, eligible, m, ks[j], q);
    assert KeyLess(ks[i], ks[j]);
  }

  lemma KeyIsListed(ps: seq<Snapshot>, m: real, p: Snapshot)
    requires p in ps
    ensures KeyOf(p, m) in Keys(ps, m)
  {
    var i :| 0 <= i < |ps| && ps[i] == p;
    assert Keys(ps, m)[i] == KeyOf(p, m);
  }

  lemma SameNameSameKey(ps: seq<Snapshot>, m: real, a: Key, b: Key)
    requires DistinctNames(ps) && a in Keys(ps, m) && b in Keys(ps, m)
    ensures a.name == b.name ==> a == b
  {
    var i :| 0 <= i < |ps| && Keys(ps, m)[i] == a;
    var j :| 0 <= j < |ps| && Keys(ps, m)[j] == b;
    if a.name == b.name {
      SameNameSameIndex(ps, i, j);
    }
  }

  // ----- The weighted draw -----

  datatype Candidate = Candidate(name: string, score: real)

  /** The scores of the first `n` candidates, added up. */
  function Prefix(cs: seq<Candidate>, n: int): real
    requires 0 <= n <= |cs|
  {
    if n == 0 then 0.0 else Prefix(cs, n - 1) + cs[n - 1].score
  }

  /** The candidate a draw `x` selects: the first whose scores so far exceed it, or the last. */
  function Picked(cs: seq<Candidate>, x: real, from: int): (i: int)
    requires 0 <= from < |cs|
    ensures from <= i < |cs|
    decreases |cs| - from
  {
    if x < Prefix(cs, from + 1) || from == |cs| - 1 then from else Picked(cs, x, from + 1)
  }

  /** A fraction of the total score. */
  function Draw(cs: seq<Candidate>, u: real): real {
    u * Prefix(cs, |cs|)
  }

  /** `u` is the fraction drawn and `any` the index drawn when no score is positive. */
  method WeightedPick(cs: seq<Candidate>, u: real, any: int) returns (name: string)
    requires 0.0 <= u < 1.0 && (cs != [] ==> 0 <= any < |cs|)
    ensures name == if cs == [] then "" else if Prefix(cs, |cs|) <= 0.0 then cs[any].name
                    else cs[Picked(cs, Draw(cs, u), 0)].name
  {
    if |cs| == 0 {
      return "";
    }
    var total := 0.0;
    for i := 0 to |cs|
      invariant total == Prefix(cs, i)
    {
      total := total + cs[i].score;
    }
    if total <= 0.0 {
      return cs[any].name;
    }
    ghost var draw := Draw(cs, u);
    var x := u * total;
    for i := 0 to |cs|
      invariant x == draw - Prefix(cs, i)
      invariant Picked(cs, draw, 0) == if i < |cs| then Picked(cs, draw, i) else |cs| - 1
    {
      assert Prefix(cs, i + 1) == Prefix(cs, i) + cs[i].score;
      x := x - cs[i].score;
      if x < 0.0 {
        return cs[i].name;
      }
    }
    return cs[|cs| - 1].name;
  }

  predicate Positive(cs: seq<Candidate>) {
    forall i | 0 <= i < |cs| :: cs[i].score > 0.0
  }

  lemma {:induction false} PrefixGrows(cs: seq<Candidate>, i: int, j: int)
    requires Positive(cs) && 0 <= i <= j <= |cs|
    ensures Prefix(cs, i) <= Prefix(cs, j)
    ensures i < j ==> Prefix(cs, i) < Prefix(cs, j)
    decreases j
  {
    if i < j {
      PrefixGrows(cs, i, j - 1);
    }
  }

  lemma {:induction false} PickedFrom(cs: seq<Candidate>, x: real, from: int)
    requires 0 <= from < |cs| && Prefix(cs, from) <= x < Prefix(cs, |cs|)
    ensures Prefix(cs, Picked(cs, x, from)) <= x < Prefix(cs, Picked(cs, x, from) + 1)
    decreases |cs| - from
  {
    if from < |cs| - 1 && x >= Prefix(cs, from + 1) {
      PickedFrom(cs, x, from + 1);
    }
  }

  /**
   * Of the draws in [0, total) exactly those in an interval of length `score` select a candidate, so each is drawn
   * in proportion to its score and the loop never runs past the last.
   */
  lemma DrawsAreProportional(cs: seq<Candidate>, x: real, i: int)
    requires Positive(cs) && 0 <= i < |cs| && 0.0 <= x < Prefix(cs, |cs|)
    ensures Picked(cs, x, 0) == i <==> Prefix(cs, i) <= x < Prefix(cs, i) + cs[i].score
    ensures x - Prefix(cs, Picked(cs, x, 0) + 1) < 0.0
  {
    PickedFrom(cs, x, 0);
    var j := Picked(cs, x, 0);
    if j < i {
      PrefixGrows(cs, j + 1, i);
    } else if i < j {
      PrefixGrows(cs, i + 1, j);
    }
  }

  // ----- Selecting from the pool -----

  function Closed(): Snapshot -> bool {
    (p: Snapshot) => !p.circuitOpen
  }

  function OfPriority(priority: int): Snapshot -> bool {
    (p: Snapshot) => p.priority == priority
  }

  /** What the selection sorts by: priority, then name. */
  function TierKey(p: Snapshot): Key {
    Key(false, p.priority, 0.0, p.name)
  }

  predicate IsTierOrder(ps: seq<Snapshot>) {
    forall i, j | 0 <= i < j < |ps| :: KeyLess(TierKey(ps[i]), TierKey(ps[j]))
  }

  method InsertByTier(p: Snapshot, ps: seq<Snapshot>) returns (out: seq<Snapshot>)
    requires IsTierOrder(ps) && forall q | q in ps :: q.name != p.name
    ensures IsTierOrder(out) && forall q :: q in out <==> q == p || q in ps
  {
    var i := 0;
    while i < |ps| && KeyLess(TierKey(ps[i]), TierKey(p))
      invariant 0 <= i <= |ps|
      invariant forall k | 0 <= k < i :: KeyLess(TierKey(ps[k]), TierKey(p))
    {
      i := i + 1;
    }
    out := ps[..i] + [p] + ps[i..];
    forall k | i <= k < |ps| ensures KeyLess(TierKey(p), TierKey(ps[k])) {
      assert ps[i] in ps;
      KeyLessIsTotal(TierKey(ps[i]), TierKey(p));
      if i < k {
        KeyLessIsTransitive(TierKey(p), TierKey(ps[i]), TierKey(ps[k]));
      }
    }
    assert ps == ps[..i] + ps[i..];
  }

  method SortByTier(ps: seq<Snapshot>) returns (out: seq<Snapshot>)
    requires DistinctNames(ps)
    ensures IsTierOrder(out) && SameMembers(out, ps)
  {
    out := [];
    for i := 0 to |ps|
      invariant IsTierOrder(out) && SameMembers(out, ps[..i])
    {
      assert ps[..i + 1] == ps[..i] + [ps[i]];
      assert forall q | q in ps[..i] :: q.name != ps[i].name;
      out := InsertByTier(ps[i], out);
    }
    assert ps[..|ps|] == ps;
  }

  method FilterBy(ps: seq<Snapshot>, keep: Snapshot -> bool) returns (out: seq<Snapshot>)
    ensures out == Filtered(ps, keep)
  {
    out := [];
    assert ps[..|ps|] == ps;
    for i := 0 to |ps|
      invariant out == Filtered(ps[..i], keep)
    {
      assert ps[..i + 1][..i] == ps[..i];
      if keep(ps[i]) {
        out := out + [ps[i]];
      }
    }
  }

  /** The best tier: no eligible provider has a better circuit class, and none of the same class a higher priority. */
  predicate InBestTier(eligible: seq<Snapshot>, p: Snapshot) {
    && p in eligible
    && forall q | q in eligible ::
        (p.circuitOpen ==> q.circuitOpen) && (p.circuitOpen == q.circuitOpen ==> q.priority <= p.priority)
  }

  /** `cs` scores exactly the best tier, each member once. */
  ghost predicate ScoresBestTier(eligible: seq<Snapshot>, tier: seq<Snapshot>, m: real, cs: seq<Candidate>) {
    && (forall p :: p in tier <==> InBestTier(eligible, p)) && DistinctNames(tier) && IsMinPrice(tier, m)
    && |cs| == |tier| && forall i | 0 <= i < |tier| :: cs[i] == Candidate(tier[i].name, EffectiveWeight(tier[i], m))
  }

  /** The tier set: the members of the best tier. */
  method BestTier(eligible: seq<Snapshot>) returns (tier: seq<Snapshot>)
    requires DistinctNames(eligible) && eligible != []
    ensures DistinctNames(tier) && tier != [] && forall p :: p in tier <==> InBestTier(eligible, p)
  {
    var pick := eligible;
    var healthy := FilterBy(eligible, Closed());
    FilteredKeeps(eligible, Closed());
    if |healthy| > 0 {
      pick := healthy;
      assert healthy[0] in healthy;
    }
    assert eligible[0] in eligible;
    var sorted := SortByTier(pick);
    assert sorted != [] by {
      assert pick[0] in pick;
    }
    tier := FilterBy(sorted, OfPriority(sorted[0].priority));
    TierOrderIsDistinct(pick, sorted);
    FilteredKeeps(sorted, OfPriority(sorted[0].priority));
    assert sorted[0] in sorted && sorted[0] in tier;
    forall q | q in pick ensures q.priority <= sorted[0].priority {
      var j :| 0 <= j < |sorted| && sorted[j] == q;
      assert j > 0 ==> KeyLess(TierKey(sorted[0]), TierKey(sorted[j]));
    }
  }

  lemma TierOrderIsDistinct(ps: seq<Snapshot>, sorted: seq<Snapshot>)
    requires DistinctNames(ps) && IsTierOrder(sorted) && forall p | p in sorted :: p in ps
    ensures DistinctNames(sorted)
  {
    forall i, j | 0 <= i < j < |sorted| ensures sorted[i].name != sorted[j].name {
      assert sorted[i] in ps && sorted[j] in ps && KeyLess(TierKey(sorted[i]), TierKey(sorted[j]));
      LexIsTotal(sorted[i].name, sorted[j].name);
    }
  }

  /** The scored candidates of a tier: every score is positive. */
  method ScoreTier(tier: seq<Snapshot>, minInput: real) returns (cs: seq<Candidate>)
    ensures |cs| == |tier|
    ensures forall i | 0 <= i < |tier| :: cs[i] == Candidate(tier[i].name, EffectiveWeight(tier[i], minInput))
    ensures Positive(cs)
  {
    cs := [];
    for i := 0 to |tier|
      invariant |cs| == i && Positive(cs)
      invariant forall k | 0 <= k < i :: cs[k] == Candidate(tier[k].name, EffectiveWeight(tier[k], minInput))
    {
      var score := EffectiveWeight(tier[i], minInput);
      ScoreIsWithin(tier[i], minInput);
      cs := cs + [Candidate(tier[i].name, score)];
    }
  }

  /** Selects by a weighted draw within the best tier; `u` and `any` are the draws. */
  method SelectFromPool(list: seq<Snapshot>, pool: map<string, bool>, u: real, any: nat)
    returns (name: string, ghost tier: seq<Snapshot>, ghost m: real, ghost cs: seq<Candidate>)
    requires DistinctNames(list) && 0.0 <= u < 1.0
    ensures var eligible := Filtered(list, InPool(pool));
            if eligible == [] then name == ""
            else
              && ScoresBestTier(eligible, tier, m, cs) && cs != [] && Positive(cs) && Prefix(cs, |cs|) > 0.0
              && name == cs[Picked(cs, Draw(cs, u), 0)].name
              && exists p :: InBestTier(eligible, p) && p.name == name
    ensures name != "" ==> Offers(list, pool, name)
    ensures name == "" ==> Offers(list, pool, "") || forall n: string :: !Offers(list, pool, n)
  {
    var eligible := PoolEligible(list, pool);
    FilteredKeeps(list, InPool(pool));
    name, tier, m, cs := "", [], 0.0, [];
    if |eligible| == 0 {
      return;
    }
    var tierSet := BestTier(eligible);
    var minInput := MinInputPrice(tierSet);
    var cands := ScoreTier(tierSet, minInput);
    tier, m, cs := tierSet, minInput, cands;
    PrefixGrows(cs, 0, |cs|);
    name := WeightedPick(cands, u, any % |cands|);
    ghost var picked := tierSet[Picked(cs, Draw(cs, u), 0)];
    assert picked in tierSet && picked.name == name;
  }

  /** Whatever the pool selection can return shares the circuit class and the priority of the fallback chain's head. */
  lemma SelectionAgreesWithChain(list: seq<Snapshot>, pool: map<string, bool>, chain: seq<string>, p: Snapshot,
                                 head: Snapshot)
    requires DistinctNames(list) && IsChain(list, pool, chain) && chain != []
    requires InBestTier(Filtered(list, InPool(pool)), p)
    requires head in list && head.name == chain[0]
    ensures p.circuitOpen == head.circuitOpen && p.priority == head.priority
  {
    var eligible := Filtered(list, InPool(pool));
    var m :| IsMinPrice(eligible, m) && chain == Names(SortedKeys(Keys(eligible, m)));
    var ks := SortedKeys(Keys(eligible, m));
    FilteredKeeps(list, InPool(pool));
    KeysAreDistinct(eligible, m);
    SortSorts(Keys(eligible, m));
    HeadIsEligible(list, eligible, m, ks[0], head);
    KeyIsListed(eligible, m, p);
    var i :| 0 <= i < |ks| && ks[i] == KeyOf(p, m);
    assert i > 0 ==> KeyLess(ks[0], ks[i]);
  }

  lemma HeadIsEligible(list: seq<Snapshot>, eligible: seq<Snapshot>, m: real, k: Key, head: Snapshot)
    requires DistinctNames(list) && (forall p | p in eligible :: p in list) && k in Keys(eligible, m)
    requires head in list && head.name == k.name
    ensures head in eligible && k == KeyOf(head, m)
  {
    var j :| 0 <= j < |eligible| && Keys(eligible, m)[j] == k;
    assert eligible[j] in eligible;
    var a :| 0 <= a < |list| && list[a] == eligible[j];
    var b :| 0 <= b < |list| && list[b] == head;
    SameNameSameIndex(list, a, b);
  }
}
