/** Bounded-load affinity routing over the hash ring: the clockwise walk, overflow stickiness, load counts. */
module Affinity {
  import opened Wrappers
  import opened HashRing

  datatype Reason = Overflow | Primary | Fallback

  datatype Decision = Decision(provider: string, reason: Reason)

  datatype OverflowEntry = OverflowEntry(provider: string, until: int)

  // ----- The walk -----

  /** The index `step` places clockwise of `start`. */
  function Clockwise(start: nat, step: nat, n: nat): (idx: nat)
    requires start <= n && step < n
    ensures idx < n
  {
    if start + step < n then start + step else start + step - n
  }

  lemma ClockwiseIsModulo(start: nat, step: nat, n: nat)
    requires start <= n && step < n
    ensures (start + step) % n == Clockwise(start, step, n)
  {
    var x := start + step;
    var turns := if x < n then 0 else 1;
    assert x == turns * n + Clockwise(start, step, n);
    RemainderIsUnique(x, n, turns, Clockwise(start, step, n));
  }

  lemma RemainderIsUnique(x: int, n: int, q: int, r: int)
    requires 0 <= r < n && x == q * n + r && 0 <= q <= 1
    ensures x % n == r
  {
  }

  /** Names met clockwise from `start`, one full turn. */
  function Turn(vnodes: seq<VNode>, start: nat): (names: seq<string>)
    requires start <= |vnodes|
    ensures |names| == |vnodes|
  {
    seq(|vnodes|, s requires 0 <= s < |vnodes| => vnodes[Clockwise(start, s, |vnodes|)].name)
  }

  /** The loop's answer: a name equal to the one looked at just before is passed over. */
  function Walk(names: seq<string>, last: string, available: string -> bool): Option<string> {
    if names == [] then None
    else if names[0] == last then Walk(names[1..], last, available)
    else if available(names[0]) then Some(names[0])
    else Walk(names[1..], names[0], available)
  }

  function FirstAvailable(names: seq<string>, available: string -> bool): (r: Option<string>)
    ensures r.None? <==> forall n | n in names :: !available(n)
  {
    if names == [] then None
    else if available(names[0]) then Some(names[0])
    else FirstAvailable(names[1..], available)
  }

  function DropLeading(names: seq<string>, last: string): seq<string> {
    if names != [] && names[0] == last then DropLeading(names[1..], last) else names
  }

  /** Skipping repeats loses nothing beyond the leading run of `last`. */
  lemma {:induction false} WalkIsFirstAfterLeadingRun(names: seq<string>, last: string, available: string -> bool)
    ensures Walk(names, last, available) == FirstAvailable(DropLeading(names, last), available)
  {
    if names != [] {
      if names[0] == last {
        WalkIsFirstAfterLeadingRun(names[1..], last, available);
      } else if !available(names[0]) {
        WalkIsFirstAfterLeadingRun(names[1..], names[0], available);
        DroppingUnavailable(names[1..], names[0], available);
      }
    }
  }

  lemma {:induction false} DroppingUnavailable(names: seq<string>, last: string, available: string -> bool)
    requires !available(last)
    ensures FirstAvailable(DropLeading(names, last), available) == FirstAvailable(names, available)
  {
    if names != [] && names[0] == last {
      DroppingUnavailable(names[1..], last, available);
    }
  }

  /** Every empty name of a list comes after an available provider with a name. */
  predicate EmptyComesLater(names: seq<string>, available: string -> bool) {
    forall k | 0 <= k < |names| && names[k] == "" :: exists j :: 0 <= j < k && names[j] != "" && available(names[j])
  }

  /**
   * The walk starts with `lastVisited` empty, so a leading run of a provider named "" is passed over. That matters
   * when the provider is available and the walk meets another one before it comes back to it, or never does.
   */
  predicate EmptyNameShadowed(names: seq<string>, available: string -> bool) {
    names != [] && names[0] == "" && available("") && EmptyComesLater(DropLeading(names, ""), available)
  }

  /** When a first available name is not the empty one, told by positions alone. */
  lemma FirstIsNamed(names: seq<string>, available: string -> bool)
    requires available("")
    ensures FirstAvailable(names, available) != Some("") <==> EmptyComesLater(names, available)
  {
    if FirstAvailable(names, available).Some? {
      var s := FirstIsEarliest(names, available);
      if names[s] == "" {
        assert !EmptyComesLater(names, available);
      } else {
        assert forall k | 0 <= k < |names| && names[k] == "" :: s < k;
      }
    } else {
      assert forall k | 0 <= k < |names| :: names[k] in names;
    }
  }

  /** The walk finds the first available provider exactly when the empty name is not in the way. */
  lemma WalkFindsFirstAvailable(names: seq<string>, available: string -> bool)
    ensures Walk(names, "", available) == FirstAvailable(names, available) <==> !EmptyNameShadowed(names, available)
  {
    WalkIsFirstAfterLeadingRun(names, "", available);
    if available("") {
      FirstIsNamed(DropLeading(names, ""), available);
    } else {
      DroppingUnavailable(names, "", available);
    }
  }

  lemma {:induction false} WalkAnswersAvailable(names: seq<string>, last: string, available: string -> bool)
    ensures var r := Walk(names, last, available); r.Some? ==> r.value in names && available(r.value)
  {
    if names != [] {
      if names[0] == last {
        WalkAnswersAvailable(names[1..], last, available);
      } else if !available(names[0]) {
        WalkAnswersAvailable(names[1..], names[0], available);
      }
    }
  }

  lemma NoEmptyNameNoShadow(names: seq<string>, available: string -> bool)
    requires "" !in names
    ensures !EmptyNameShadowed(names, available)
  {
  }

  // ----- The walk is a lookup on the ring of available providers -----

  function Keep(nodes: seq<Node>, available: string -> bool): (r: seq<Node>)
    ensures forall n :: n in r <==> n in nodes && available(n.name)
  {
    if nodes == [] then []
    else if available(nodes[0].name) then [nodes[0]] + Keep(nodes[1..], available)
    else Keep(nodes[1..], available)
  }

  ghost predicate Lists(nodes: seq<Node>, name: string) {
    exists n :: n in nodes && n.name == name
  }

  ghost predicate NoEmptyName(nodes: seq<Node>) {
    forall n | n in nodes :: n.name != ""
  }

  /** `r` is the lookup on the ring rebuilt from the available nodes; none exactly when that ring is empty. */
  ghost predicate LooksUpAvailable(hashKey: HashKey, nodes: seq<Node>, available: string -> bool, key: string,
                                   r: Option<string>)
  {
    match r
    case None => Keep(nodes, available) == []
    case Some(name) => Keep(nodes, available) != [] && Answers(hashKey, Keep(nodes, available), key, name)
  }

  ghost predicate SearchResult(vnodes: seq<VNode>, h: Hash, start: nat) {
    && start <= |vnodes|
    && (forall k | 0 <= k < start :: vnodes[k].hash < h)
    && (forall k | start <= k < |vnodes| :: vnodes[k].hash >= h)
  }

  lemma {:induction false} FirstIsEarliest(names: seq<string>, available: string -> bool) returns (s: nat)
    requires FirstAvailable(names, available).Some?
    ensures s < |names| && names[s] == FirstAvailable(names, available).value && available(names[s])
    ensures forall k | 0 <= k < s :: !available(names[k])
  {
    if available(names[0]) {
      s := 0;
    } else {
      var t := FirstIsEarliest(names[1..], available);
      s := t + 1;
    }
  }

  lemma TurnPosition(vnodes: seq<VNode>, start: nat, k: nat) returns (s: nat)
    requires start <= |vnodes| && k < |vnodes|
    ensures s < |vnodes| && Clockwise(start, s, |vnodes|) == k
  {
    s := if k >= start then k - start else k + |vnodes| - start;
  }

  lemma TurnGoesClockwise(vnodes: seq<VNode>, h: Hash, start: nat, s: nat, t: nat)
    requires Sorted(vnodes) && SearchResult(vnodes, h, start) && s <= t < |vnodes|
    ensures Distance(h, vnodes[Clockwise(start, s, |vnodes|)]) <= Distance(h, vnodes[Clockwise(start, t, |vnodes|)])
  {
    var i, j := Clockwise(start, s, |vnodes|), Clockwise(start, t, |vnodes|);
    if i < j {
      assert vnodes[i].hash <= vnodes[j].hash;
    } else if j < i {
      assert vnodes[j].hash <= vnodes[i].hash;
    }
  }

  lemma NamesOnTurn(vnodes: seq<VNode>, start: nat)
    requires start <= |vnodes|
    ensures forall v | v in vnodes :: v.name in Turn(vnodes, start)
    ensures forall n | n in Turn(vnodes, start) :: exists v <- vnodes :: v.name == n
  {
    forall v | v in vnodes ensures v.name in Turn(vnodes, start) {
      var k :| 0 <= k < |vnodes| && vnodes[k] == v;
      var s := TurnPosition(vnodes, start, k);
      assert Turn(vnodes, start)[s] == v.name;
    }
    forall n | n in Turn(vnodes, start) ensures exists v <- vnodes :: v.name == n {
      var s :| 0 <= s < |vnodes| && Turn(vnodes, start)[s] == n;
      assert vnodes[Clockwise(start, s, |vnodes|)] in vnodes;
    }
  }

  /**
   * The first available name of a turn is what a lookup answers on a ring rebuilt from only the
   * available providers at the same weights; there is none exactly when no provider is available.
   */
  lemma FirstAvailableIsLookup(hashKey: HashKey, nodes: seq<Node>, vnodes: seq<VNode>, key: string, start: nat,
                               available: string -> bool)
    requires Sorted(vnodes) && forall v :: v in vnodes <==> v in Points(hashKey, nodes)
    requires SearchResult(vnodes, hashKey(key), start)
    ensures LooksUpAvailable(hashKey, nodes, available, key, FirstAvailable(Turn(vnodes, start), available))
  {
    var names := Turn(vnodes, start);
    var r := FirstAvailable(names, available);
    var kept := Points(hashKey, Keep(nodes, available));
    var h := hashKey(key);
    PointsOfNodes(hashKey, Keep(nodes, available));
    NamesOnTurn(vnodes, start);
    assert forall v :: v in kept <==> v in vnodes && available(v.name);
    if r.Some? {
      var s := FirstIsEarliest(names, available);
      var p := vnodes[Clockwise(start, s, |vnodes|)];
      assert p in vnodes && p.name == r.value;
      forall q | q in kept ensures Distance(h, p) <= Distance(h, q) {
        var k :| 0 <= k < |vnodes| && vnodes[k] == q;
        var t := TurnPosition(vnodes, start, k);
        assert names[t] == q.name;
        TurnGoesClockwise(vnodes, h, start, s, t);
      }
      assert Nearest(kept, h, p);
    }
  }

  /** `r` is the lookup over available providers unless an empty name is shadowed, and, without ties, only then. */
  ghost predicate LooksUpUnlessShadowed(hashKey: HashKey, nodes: seq<Node>, names: seq<string>,
                                        available: string -> bool, key: string, r: Option<string>)
  {
    var lookedUp := LooksUpAvailable(hashKey, nodes, available, key, r);
    && (NoEmptyName(nodes) || !EmptyNameShadowed(names, available) ==> lookedUp)
    && (NoCrossTies(Points(hashKey, nodes)) ==> (lookedUp <==> !EmptyNameShadowed(names, available)))
  }

  // ----- The router -----

  /** What a provider may have in flight and still be answered. */
  function Bound(weights: map<string, int>, overload: real, name: string): real {
    overload * WeightIn(weights, name) as real
  }

  /** The bound is the overload factor times the weight last listed under the name, at least one. */
  lemma BoundIsLastListed(nodes: seq<Node>, i: nat, overload: real, weight: int)
    requires i < |nodes| && forall j | i < j < |nodes| :: nodes[j].name != nodes[i].name
    requires weight == if nodes[i].weight <= 0 then 1 else nodes[i].weight
    ensures Bound(WeightsOf(nodes), overload, nodes[i].name) == overload * weight as real
  {
    WeightIsLastListed(nodes, i);
    var weights, name := WeightsOf(nodes), nodes[i].name;
    assert WeightIn(weights, name) == weight;
    BoundIsProduct(weights, overload, name, weight);
  }

  lemma BoundIsProduct(weights: map<string, int>, overload: real, name: string, weight: int)
    requires WeightIn(weights, name) == weight
    ensures Bound(weights, overload, name) == overload * weight as real
  {
  }

  predicate OverloadedIn(inflight: map<string, int>, weights: map<string, int>, overload: real, name: string) {
    name in inflight && inflight[name] as real > Bound(weights, overload, name)
  }

  /** What the walk may answer: healthy when there is a probe, and within the load bound. */
  function AvailableIn(healthy: Option<string -> bool>, inflight: map<string, int>, weights: map<string, int>,
                       overload: real): string -> bool
  {
    (name: string) => (healthy.Some? ==> healthy.value(name)) && !OverloadedIn(inflight, weights, overload, name)
  }

  function Chosen(d: Decision): Option<string> {
    if d.reason == Primary then Some(d.provider) else None
  }

  /**
   * What an answer says of health and load. The provider answered is healthy and within its bound; with no answer
   * every provider is unhealthy or over its bound; and a healthy one within its bound is answered when every point
   * nearer than one of its own belongs to a provider that is not.
   */
  ghost predicate FitsProbesAndCounts(hashKey: HashKey, nodes: seq<Node>, key: string,
                                      healthy: Option<string -> bool>, inflight: map<string, int>,
                                      weights: map<string, int>, overload: real, r: Option<string>)
  {
    var h := hashKey(key);
    && (r.Some? ==>
          && (healthy.Some? ==> healthy.value(r.value))
          && (r.value in inflight ==> inflight[r.value] as real <= Bound(weights, overload, r.value)))
    && (r.None? && NoEmptyName(nodes) ==>
          forall n | n in nodes ::
            || (healthy.Some? && !healthy.value(n.name))
            || (n.name in inflight && inflight[n.name] as real > Bound(weights, overload, n.name)))
    && (NoEmptyName(nodes) && NoCrossTies(Points(hashKey, nodes)) ==>
          forall p | p in Points(hashKey, nodes)
              && (healthy.Some? ==> healthy.value(p.name))
              && (p.name in inflight ==> inflight[p.name] as real <= Bound(weights, overload, p.name))
              && (forall q | q in Points(hashKey, nodes) && Distance(h, q) < Distance(h, p) ::
                    || (healthy.Some? && !healthy.value(q.name))
                    || (q.name in inflight && inflight[q.name] as real > Bound(weights, overload, q.name))) ::
            r == Some(p.name))
  }

  class AffinityRouter {
    const hashKey: HashKey
    const overload: real
    const overflowTTL: int
    var ring: Ring?
    var inflight: map<string, int>
    var overflow: map<string, OverflowEntry>
    var overflowCount: nat
    var primaryCount: nat
    var fallbackCount: nat

    /** The current ring was built from `nodes` (any list when there is no ring). */
    ghost predicate RoutesOver(nodes: seq<Node>)
      reads this, ring
    {
      ring != null ==> ring.hashKey == hashKey && ring.BuiltFrom(nodes)
    }

    constructor (hashKey: HashKey, nodes: seq<Node>, overload: real, overflowTTL: int)
      ensures this.hashKey == hashKey
      ensures this.overload == (if overload <= 0.0 then 1.25 else overload)
      ensures this.overflowTTL == (if overflowTTL <= 0 then 60_000_000_000 else overflowTTL)
      ensures ring != null && fresh(ring) && RoutesOver(nodes)
      ensures inflight == map[] && overflow == map[]
      ensures overflowCount == primaryCount == fallbackCount == 0
    {
      this.hashKey := hashKey;
      this.overload := if overload <= 0.0 then 1.25 else overload;
      this.overflowTTL := if overflowTTL <= 0 then 60_000_000_000 else overflowTTL;
      inflight, overflow := map[], map[];
      overflowCount, primaryCount, fallbackCount := 0, 0, 0;
      ring := new Ring(hashKey, nodes);
    }

    method SetRing(nodes: seq<Node>)
      modifies this
      ensures ring != null && fresh(ring) && RoutesOver(nodes)
      ensures overflow == map[]
      ensures unchanged(`inflight, `overflowCount, `primaryCount, `fallbackCount)
    {
      ring := new Ring(hashKey, nodes);
      overflow := map[];
    }

    predicate IsOverloaded(name: string)
      requires ring != null
      reads this, ring
    {
      OverloadedIn(inflight, ring.weights, overload, name)
    }

    function Availability(healthy: Option<string -> bool>): string -> bool
      requires ring != null
      reads this, ring
    {
      AvailableIn(healthy, inflight, ring.weights, overload)
    }

    /** The loop of the walk: one turn from `from`, passing over repeats. */
    method WalkFrom(from: nat, healthy: Option<string -> bool>) returns (r: Option<string>)
      requires ring != null && from <= |ring.vnodes|
      ensures r == Walk(Turn(ring.vnodes, from), "", Availability(healthy))
    {
      var vnodes := ring.vnodes;
      ghost var available, names := Availability(healthy), Turn(vnodes, from);
      var lastVisited := "";
      for step := 0 to |vnodes|
        invariant Walk(names, "", available) == Walk(names[step..], lastVisited, available)
      {
        var idx := (from + step) % |vnodes|;
        ClockwiseIsModulo(from, step, |vnodes|);
        var name := vnodes[idx].name;
        assert names[step..][0] == name && names[step..][1..] == names[step + 1..];
        if name == lastVisited {
          continue;
        }
        lastVisited := name;
        if healthy.Some? && !healthy.value(name) {
          continue;
        }
        if IsOverloaded(name) {
          continue;
        }
        return Some(name);
      }
      return None;
    }

    /** The clockwise walk from the key's position, at most one turn, passing over repeats. */
    method WalkRing(key: string, healthy: Option<string -> bool>, ghost nodes: seq<Node>)
      returns (r: Option<string>, ghost start: nat)
      requires RoutesOver(nodes) && ring != null
      ensures r.Some? ==> Availability(healthy)(r.value) && Lists(nodes, r.value)
      ensures SearchResult(ring.vnodes, hashKey(key), start)
      ensures r == Walk(Turn(ring.vnodes, start), "", Availability(healthy))
      ensures LooksUpUnlessShadowed(hashKey, nodes, Turn(ring.vnodes, start), Availability(healthy), key, r)
      ensures FitsProbesAndCounts(hashKey, nodes, key, healthy, inflight, ring.weights, overload, r)
    {
      var from := Search(ring.vnodes, hashKey(key));
      start := from;
      assert SearchResult(ring.vnodes, hashKey(key), start);
      ring.PointsOnRing(nodes);
      WalkAnswers(hashKey, nodes, ring.vnodes, key, start, Availability(healthy));
      r := WalkFrom(from, healthy);
      AnswerFits(hashKey, nodes, Turn(ring.vnodes, start), key, healthy, inflight, ring.weights, overload, r);
    }

    method Decide(key: string, healthy: Option<string -> bool>, now: int, ghost nodes: seq<Node>)
      returns (d: Decision, ghost start: nat)
      requires RoutesOver(nodes)
      modifies `overflow, `primaryCount, `fallbackCount
      ensures d.reason == Overflow <==>
                && ring != null && key in old(overflow) && now < old(overflow)[key].until
                && healthy.Some? && healthy.value(old(overflow)[key].provider)
      // A live sticky entry is answered and nothing changes.
      ensures d.reason == Overflow ==> d.provider == old(overflow)[key].provider && unchanged(this)
      // Otherwise the entry is dropped and the ring decides.
      ensures d.reason != Overflow ==> overflow == if ring == null then old(overflow) else old(overflow) - {key}
      ensures d.reason == Primary ==>
                && ring != null && Lists(nodes, d.provider)
                && primaryCount == old(primaryCount) + 1 && fallbackCount == old(fallbackCount)
      ensures d.reason == Fallback ==>
                && d.provider == ""
                && primaryCount == old(primaryCount) && fallbackCount == old(fallbackCount) + 1
      ensures d.reason != Overflow && ring != null ==>
                && SearchResult(ring.vnodes, hashKey(key), start)
                && Chosen(d) == Walk(Turn(ring.vnodes, start), "", Availability(healthy))
      ensures d.reason != Overflow && ring != null ==>
                LooksUpUnlessShadowed(hashKey, nodes, Turn(ring.vnodes, start), Availability(healthy), key, Chosen(d))
      // Health and load, with the probe and the counts written out.
      ensures d.reason != Overflow && ring != null ==>
                FitsProbesAndCounts(hashKey, nodes, key, healthy, inflight, ring.weights, overload, Chosen(d))
    {
      start := 0;
      if ring == null {
        fallbackCount := fallbackCount + 1;
        d := Decision("", Fallback);
        return;
      }
      if key in overflow && now < overflow[key].until && healthy.Some? && healthy.value(overflow[key].provider) {
        d := Decision(overflow[key].provider, Overflow);
        return;
      }
      overflow := overflow - {key};
      var r;
      r, start := WalkRing(key, healthy, nodes);
      match r {
        case Some(name) =>
          primaryCount := primaryCount + 1;
          d := Decision(name, Primary);
        case None =>
          fallbackCount := fallbackCount + 1;
          d := Decision("", Fallback);
      }
    }

    method RecordOverflow(key: string, provider: string, now: int)
      modifies `overflow, `overflowCount
      ensures overflow == old(overflow)[key := OverflowEntry(provider, now + overflowTTL)]
      ensures overflowCount == old(overflowCount) + 1
    {
      overflow := overflow[key := OverflowEntry(provider, now + overflowTTL)];
      overflowCount := overflowCount + 1;
    }

    method Inc(name: string)
      modifies `inflight
      ensures inflight == Raised(old(inflight), name)
      ensures inflight[name] == 1 + if name in old(inflight) then old(inflight)[name] else 0
    {
      if name !in inflight {
        inflight := inflight[name := 0];
      }
      inflight := inflight[name := inflight[name] + 1];
    }

    method Dec(name: string)
      modifies `inflight
      ensures inflight == Lowered(old(inflight), name)
      ensures name in old(inflight) && old(inflight)[name] >= 1 ==> inflight[name] == old(inflight)[name] - 1
    {
      if name !in inflight {
        return;
      }
      inflight := inflight[name := inflight[name] - 1];
      if inflight[name] < 0 {
        inflight := inflight[name := 0];
      }
    }
  }

  lemma NearestAvailableAnswers(hashKey: HashKey, nodes: seq<Node>, available: string -> bool, key: string,
                                r: Option<string>, p: VNode)
    requires NoCrossTies(Points(hashKey, nodes)) && LooksUpAvailable(hashKey, nodes, available, key, r)
    requires p in Points(hashKey, nodes) && available(p.name)
    requires forall q | q in Points(hashKey, nodes) && Distance(hashKey(key), q) < Distance(hashKey(key), p) ::
               !available(q.name)
    ensures r == Some(p.name)
  {
    var kept := Points(hashKey, Keep(nodes, available));
    assert kept <= Points(hashKey, nodes);
    assert forall v :: v in kept <==> v in Points(hashKey, nodes) && available(v.name);
    forall q | q in kept ensures Distance(hashKey(key), p) <= Distance(hashKey(key), q) {
      assert available(q.name);
    }
    assert Nearest(kept, hashKey(key), p);
    assert Owns(kept, hashKey(key), p.name);
    OwnerIsUnique(kept, hashKey(key), r.value, p.name);
  }

  /** Healthy and within its bound. */
  lemma AvailableInNumbers(healthy: Option<string -> bool>, inflight: map<string, int>, weights: map<string, int>,
                           overload: real, name: string)
    ensures AvailableIn(healthy, inflight, weights, overload)(name)
            <==> (healthy.Some? ==> healthy.value(name))
                 && (name in inflight ==> inflight[name] as real <= Bound(weights, overload, name))
  {
    assert AvailableIn(healthy, inflight, weights, overload)(name)
        == ((healthy.Some? ==> healthy.value(name)) && !OverloadedIn(inflight, weights, overload, name));
  }

  lemma AnswerFits(hashKey: HashKey, nodes: seq<Node>, names: seq<string>, key: string,
                   healthy: Option<string -> bool>, inflight: map<string, int>, weights: map<string, int>,
                   overload: real, r: Option<string>)
    requires var available := AvailableIn(healthy, inflight, weights, overload);
             (r.Some? ==> available(r.value)) && LooksUpUnlessShadowed(hashKey, nodes, names, available, key, r)
    ensures FitsProbesAndCounts(hashKey, nodes, key, healthy, inflight, weights, overload, r)
  {
    var available := AvailableIn(healthy, inflight, weights, overload);
    forall name: string
      ensures available(name)
              <==> (healthy.Some? ==> healthy.value(name))
                   && (name in inflight ==> inflight[name] as real <= Bound(weights, overload, name))
    {
      AvailableInNumbers(healthy, inflight, weights, overload, name);
    }
    if NoEmptyName(nodes) && r.None? {
      forall n | n in nodes ensures !available(n.name) {
        assert n !in Keep(nodes, available);
      }
    }
    if NoEmptyName(nodes) && NoCrossTies(Points(hashKey, nodes)) {
      forall p | p in Points(hashKey, nodes) && available(p.name)
          && forall q | q in Points(hashKey, nodes) && Distance(hashKey(key), q) < Distance(hashKey(key), p) ::
               !available(q.name)
        ensures r == Some(p.name)
      {
        NearestAvailableAnswers(hashKey, nodes, available, key, r, p);
      }
    }
  }

  /** A key's owner answers it when it is healthy and within its bound, whatever the others are. */
  lemma OwnerAnswers(hashKey: HashKey, nodes: seq<Node>, key: string, healthy: Option<string -> bool>,
                     inflight: map<string, int>, weights: map<string, int>, overload: real, r: Option<string>,
                     name: string)
    requires FitsProbesAndCounts(hashKey, nodes, key, healthy, inflight, weights, overload, r)
    requires NoEmptyName(nodes) && NoCrossTies(Points(hashKey, nodes))
    requires Owns(Points(hashKey, nodes), hashKey(key), name)
    requires healthy.Some? ==> healthy.value(name)
    requires name in inflight ==> inflight[name] as real <= Bound(weights, overload, name)
    ensures r == Some(name)
  {
    var p :| p in Points(hashKey, nodes) && p.name == name && Nearest(Points(hashKey, nodes), hashKey(key), p);
  }

  lemma WalkAnswers(hashKey: HashKey, nodes: seq<Node>, vnodes: seq<VNode>, key: string, start: nat,
                    available: string -> bool)
    requires Sorted(vnodes) && forall v :: v in vnodes <==> v in Points(hashKey, nodes)
    requires SearchResult(vnodes, hashKey(key), start)
    ensures var r := Walk(Turn(vnodes, start), "", available);
            && (r.Some? ==> available(r.value) && Lists(nodes, r.value))
            && LooksUpUnlessShadowed(hashKey, nodes, Turn(vnodes, start), available, key, r)
  {
    var names := Turn(vnodes, start);
    FirstAvailableIsLookup(hashKey, nodes, vnodes, key, start, available);
    WalkAnswersAvailable(names, "", available);
    NamesOnTurn(vnodes, start);
    WalkFindsFirstAvailable(names, available);
    if NoEmptyName(nodes) {
      NoEmptyNameNoShadow(names, available);
    }
    if NoCrossTies(Points(hashKey, nodes)) {
      WalkIsLookupExactlyWhenNotShadowed(hashKey, nodes, vnodes, key, start, available);
    }
  }

  /** With empty names about: the walk is the lookup exactly when no leading run of "" hides one. */
  lemma WalkIsLookupExactlyWhenNotShadowed(hashKey: HashKey, nodes: seq<Node>, vnodes: seq<VNode>, key: string,
                                           start: nat, available: string -> bool)
    requires NoCrossTies(Points(hashKey, nodes))
    requires Sorted(vnodes) && forall v :: v in vnodes <==> v in Points(hashKey, nodes)
    requires SearchResult(vnodes, hashKey(key), start)
    ensures LooksUpAvailable(hashKey, nodes, available, key, Walk(Turn(vnodes, start), "", available))
            <==> !EmptyNameShadowed(Turn(vnodes, start), available)
  {
    var names := Turn(vnodes, start);
    var walked, first := Walk(names, "", available), FirstAvailable(names, available);
    FirstAvailableIsLookup(hashKey, nodes, vnodes, key, start, available);
    WalkFindsFirstAvailable(names, available);
    if walked.Some? && first.Some? && LooksUpAvailable(hashKey, nodes, available, key, walked) {
      var kept := Points(hashKey, Keep(nodes, available));
      assert kept <= Points(hashKey, nodes);
      OwnerIsUnique(kept, hashKey(key), walked.value, first.value);
    }
  }

  // ----- The load bound -----

  function Raised(inflight: map<string, int>, name: string): map<string, int> {
    inflight[name := if name in inflight then inflight[name] + 1 else 1]
  }

  function Lowered(inflight: map<string, int>, name: string): map<string, int> {
    if name !in inflight then inflight
    else inflight[name := if inflight[name] <= 0 then 0 else inflight[name] - 1]
  }

  /** A request that ends gives back what it took, and touches no other count. */
  lemma EndingUndoesStarting(inflight: map<string, int>, name: string, other: string)
    requires name in inflight ==> inflight[name] >= 0
    ensures var after := Lowered(Raised(inflight, name), name);
            && name in after && after[name] == (if name in inflight then inflight[name] else 0)
            && (other != name ==> (other in after <==> other in inflight))
            && (other != name && other in inflight ==> after[other] == inflight[other])
  {
  }

  /** A request without a sticky entry, walking from `start` and counted where it goes; or one that ends. */
  datatype LoadEvent = Serve(start: nat, healthy: Option<string -> bool>) | Finish(name: string)

  function Loaded(vnodes: seq<VNode>, weights: map<string, int>, overload: real, inflight: map<string, int>,
                  e: LoadEvent): map<string, int>
    requires e.Serve? ==> e.start <= |vnodes|
  {
    match e
    case Serve(start, healthy) =>
      (match Walk(Turn(vnodes, start), "", AvailableIn(healthy, inflight, weights, overload))
       case None => inflight
       case Some(name) => Raised(inflight, name))
    case Finish(name) => Lowered(inflight, name)
  }

  function AfterLoad(vnodes: seq<VNode>, weights: map<string, int>, overload: real, inflight: map<string, int>,
                     es: seq<LoadEvent>): map<string, int>
    requires forall e | e in es && e.Serve? :: e.start <= |vnodes|
    decreases |es|
  {
    if es == [] then inflight
    else AfterLoad(vnodes, weights, overload, Loaded(vnodes, weights, overload, inflight, es[0]), es[1..])
  }

  /** No provider is more than one request over its bound. */
  predicate WithinLoad(weights: map<string, int>, overload: real, inflight: map<string, int>) {
    forall n | n in inflight :: inflight[n] as real <= Bound(weights, overload, n) + 1.0
  }

  lemma BoundIsPositive(weights: map<string, int>, overload: real, name: string)
    requires overload > 0.0
    ensures Bound(weights, overload, name) > 0.0
  {
  }

  lemma RaisingStaysWithin(weights: map<string, int>, overload: real, inflight: map<string, int>, name: string)
    requires overload > 0.0 && WithinLoad(weights, overload, inflight)
    requires !OverloadedIn(inflight, weights, overload, name)
    ensures WithinLoad(weights, overload, Raised(inflight, name))
  {
    BoundIsPositive(weights, overload, name);
  }

  lemma LoweringStaysWithin(weights: map<string, int>, overload: real, inflight: map<string, int>, name: string)
    requires overload > 0.0 && WithinLoad(weights, overload, inflight)
    ensures WithinLoad(weights, overload, Lowered(inflight, name))
  {
    BoundIsPositive(weights, overload, name);
  }

  /**
   * Bounded load: on one ring, however requests walk, whatever is healthy and in whatever order requests end, no
   * provider is ever more than one request over overload * weight, when each answer is counted before the next walk.
   */
  lemma {:induction false} LoadIsBounded(vnodes: seq<VNode>, weights: map<string, int>, overload: real,
                                         inflight: map<string, int>, es: seq<LoadEvent>)
    requires forall e | e in es && e.Serve? :: e.start <= |vnodes|
    requires overload > 0.0 && WithinLoad(weights, overload, inflight)
    ensures WithinLoad(weights, overload, AfterLoad(vnodes, weights, overload, inflight, es))
    decreases |es|
  {
    if es != [] {
      assert es[0] in es;
      match es[0] {
        case Serve(start, healthy) =>
          var available := AvailableIn(healthy, inflight, weights, overload);
          var answer := Walk(Turn(vnodes, start), "", available);
          WalkAnswersAvailable(Turn(vnodes, start), "", available);
          if answer.Some? {
            RaisingStaysWithin(weights, overload, inflight, answer.value);
          }
        case Finish(name) => LoweringStaysWithin(weights, overload, inflight, name);
      }
      LoadIsBounded(vnodes, weights, overload, Loaded(vnodes, weights, overload, inflight, es[0]), es[1..]);
    }
  }

  /** Without ties, what the walk must answer is the very name a rebuilt ring's lookup answers. */
  lemma AnswerIsTheLookup(hashKey: HashKey, nodes: seq<Node>, available: string -> bool, key: string, r: Option<string>,
                          name: string)
    requires NoCrossTies(Points(hashKey, nodes)) && LooksUpAvailable(hashKey, nodes, available, key, r)
    requires Answers(hashKey, Keep(nodes, available), key, name)
    ensures r == if Keep(nodes, available) == [] then None else Some(name)
  {
    var kept := Points(hashKey, Keep(nodes, available));
    assert kept <= Points(hashKey, nodes);
    if r.Some? {
      OwnerIsUnique(kept, hashKey(key), r.value, name);
    }
  }

  /** A provider that turns unhealthy or overloaded loses its keys; every other key keeps its provider. */
  lemma LosingAProviderMovesOnlyItsKeys(hashKey: HashKey, nodes: seq<Node>, key: string, available: string -> bool,
                                        lost: string, before: Option<string>, after: Option<string>)
    requires NoCrossTies(Points(hashKey, nodes))
    requires LooksUpAvailable(hashKey, nodes, available, key, before)
    requires LooksUpAvailable(hashKey, nodes, name => available(name) && name != lost, key, after)
    ensures before != Some(lost) ==> after == before
    ensures after != Some(lost)
  {
    var fewer := (name: string) => available(name) && name != lost;
    var big, small := Points(hashKey, Keep(nodes, available)), Points(hashKey, Keep(nodes, fewer));
    assert small <= big <= Points(hashKey, nodes);
    assert after.Some? ==> Keep(nodes, fewer)[0] in Keep(nodes, available);
    if before.Some? && before != Some(lost) {
      OwnerSurvivesShrinking(big, small, hashKey(key), before.value);
      PointsOfNodes(hashKey, Keep(nodes, fewer));
      OwnerIsUnique(small, hashKey(key), before.value, after.value);
    }
  }

  /** A concrete loss: one provider named "", available, on every position, and the walk falls back. */
  lemma EmptyNameCanBeShadowed(hashKey: HashKey, key: string, vnodes: seq<VNode>, start: nat)
    requires vnodes != [] && start <= |vnodes| && forall v | v in vnodes :: v.name == ""
    ensures Walk(Turn(vnodes, start), "", _ => true) == None
    ensures FirstAvailable(Turn(vnodes, start), _ => true) == Some("")
  {
    var names := Turn(vnodes, start);
    assert forall k | 0 <= k < |names| :: names[k] == "";
    AllDropped(names);
    WalkIsFirstAfterLeadingRun(names, "", _ => true);
  }

  lemma {:induction false} AllDropped(names: seq<string>)
    requires forall k | 0 <= k < |names| :: names[k] == ""
    ensures DropLeading(names, "") == []
  {
    if names != [] {
      AllDropped(names[1..]);
    }
  }
}
