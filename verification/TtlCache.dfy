/** The response cache: entries that expire, and room made by evicting the one that expires first. */
module TtlCache {
  import opened Wrappers

  datatype Entry = Entry(value: string, expiresAt: int)

  type Entries = map<string, Entry>

  predicate Expired(e: Entry, now: int) {
    now > e.expiresAt
  }

  // ----- Choosing what to evict -----

  predicate Known(m: Entries, order: seq<string>) {
    forall i | 0 <= i < |order| :: order[i] in m
  }

  /** The loop over the map in one order; the empty string stands for nothing chosen yet. */
  function Scan(m: Entries, order: seq<string>): (oldest: string)
    requires Known(m, order)
    ensures oldest == "" || oldest in order
    ensures order != [] ==> oldest in m && oldest in order
  {
    if order == [] then ""
    else
      var front, k := order[..|order| - 1], order[|order| - 1];
      var before := Scan(m, front);
      if before == "" || m[k].expiresAt < m[before].expiresAt then k else before
  }

  predicate Distinct(order: seq<string>) {
    forall i, j | 0 <= i < j < |order| :: order[i] != order[j]
  }

  /** The keys of a set, each once. */
  ghost predicate OrdersKeys(order: seq<string>, keys: set<string>) {
    Distinct(order) && forall k: string :: k in order <==> k in keys
  }

  /** An order in which the map may yield its keys. */
  ghost predicate Orders(order: seq<string>, m: Entries) {
    OrdersKeys(order, m.Keys) && Known(m, order)
  }

  lemma OneMoreKey(order: seq<string>, keys: set<string>, k: string)
    requires OrdersKeys(order, keys) && k !in keys
    ensures OrdersKeys(order + [k], keys + {k})
  {
    var more := order + [k];
    forall j: string ensures j in more <==> j in keys + {k} {
      assert j in more <==> j in order || j == k;
    }
    assert forall i | 0 <= i < |order| :: order[i] in order;
  }

  lemma ScanOneMore(m: Entries, order: seq<string>, k: string)
    requires Known(m, order) && k in m
    ensures Known(m, order + [k])
    ensures Scan(m, order + [k]) == var before := Scan(m, order);
                                    if before == "" || m[k].expiresAt < m[before].expiresAt then k else before
  {
    assert (order + [k])[..|order|] == order;
  }

  lemma ScanGoesOn(m: Entries, order: seq<string>, left: set<string>, k: string)
    requires left <= m.Keys && OrdersKeys(order, m.Keys - left) && Known(m, order) && k in left
    ensures OrdersKeys(order + [k], m.Keys - (left - {k})) && Known(m, order + [k])
    ensures Scan(m, order + [k]) == var before := Scan(m, order);
                                    if before == "" || m[k].expiresAt < m[before].expiresAt then k else before
  {
    OneMoreKey(order, m.Keys - left, k);
    ScanOneMore(m, order, k);
    assert m.Keys - left + {k} == m.Keys - (left - {k});
  }

  /** No entry expires before this one. */
  predicate Earliest(m: Entries, victim: string) {
    victim in m && forall k | k in m :: m[victim].expiresAt <= m[k].expiresAt
  }

  function Kept(m: Entries, now: int): Entries {
    map k | k in m && !Expired(m[k], now) :: m[k]
  }

  /** A write: at capacity the scanned victim goes first, whether or not the key is already there. */
  function Written(maxSize: int, m: Entries, order: seq<string>, key: string, e: Entry): Entries
    requires Known(m, order)
  {
    (if |m| >= maxSize then m - {Scan(m, order)} else m)[key := e]
  }

  class Cache {
    const maxSize: int
    const ttl: int
    var entries: Entries

    constructor (maxSize: int, ttl: int)
      ensures this.maxSize == maxSize && this.ttl == ttl && entries == map[]
    {
      this.maxSize, this.ttl := maxSize, ttl;
      entries := map[];
    }

    method Get(key: string, now: int) returns (value: Option<string>)
      ensures value == if key in entries && now <= entries[key].expiresAt then Some(entries[key].value) else None
    {
      if key !in entries {
        return None;
      }
      if now > entries[key].expiresAt {
        return None;
      }
      return Some(entries[key].value);
    }

    method Set(key: string, value: string, now: int) returns (ghost order: seq<string>)
      modifies this
      ensures Orders(order, old(entries))
      ensures entries == Written(maxSize, old(entries), order, key, Entry(value, now + ttl))
    {
      order := SetWithTTL(key, value, ttl, now);
    }

    /** The scan for the entry to evict; `order` is the order in which the map yields its keys. */
    method Oldest() returns (oldest: string, ghost order: seq<string>)
      ensures Orders(order, entries) && oldest == Scan(entries, order)
      ensures entries != map[] ==> oldest in entries && (Unshadowed(entries) ==> Earliest(entries, oldest))
    {
      var m, oldestTime := entries, 0;
      var left := m.Keys;
      oldest, order := "", [];
      while left != {}
        invariant left <= m.Keys && OrdersKeys(order, m.Keys - left)
        invariant Known(m, order) && oldest == Scan(m, order)
        invariant oldest != "" ==> oldestTime == m[oldest].expiresAt
        decreases |left|
      {
        var k :| k in left;
        ScanGoesOn(m, order, left, k);
        left := left - {k};
        order := order + [k];
        if oldest == "" || m[k].expiresAt < oldestTime {
          oldest := k;
          oldestTime := m[k].expiresAt;
        }
      }
      assert m.Keys - left == m.Keys;
      VictimOf(m, order);
    }

    method SetWithTTL(key: string, value: string, ttl: int, now: int) returns (ghost order: seq<string>)
      modifies this
      ensures Orders(order, old(entries))
      ensures entries == Written(maxSize, old(entries), order, key, Entry(value, now + ttl))
      ensures key in entries && entries[key].value == value && entries[key].expiresAt == now + ttl
      ensures |old(entries)| < maxSize ==> forall k | k in old(entries) && k != key ::
                                             k in entries && entries[k] == old(entries)[k]
    {
      order := KeysHaveOrder(entries.Keys);
      if |entries| >= maxSize {
        var oldest;
        oldest, order := Oldest();
        entries := entries - {oldest};
      }
      entries := entries[key := Entry(value, now + ttl)];
    }

    method EvictExpired(now: int)
      modifies this
      ensures entries == Kept(old(entries), now)
      ensures forall k :: k in entries <==> k in old(entries) && now <= old(entries)[k].expiresAt
    {
      var left := entries.Keys;
      while left != {}
        invariant left <= old(entries).Keys
        invariant forall k :: k in entries <==> k in old(entries) && (k in left || !Expired(old(entries)[k], now))
        invariant forall k | k in entries :: entries[k] == old(entries)[k]
        decreases |left|
      {
        var k :| k in left;
        left := left - {k};
        if now > entries[k].expiresAt {
          entries := entries - {k};
        }
      }
    }

    method Size() returns (n: int)
      ensures n == |entries|
    {
      n := |entries|;
    }
  }

  // ----- The victim -----

  lemma {:induction false} KeysHaveOrder(keys: set<string>) returns (order: seq<string>)
    ensures OrdersKeys(order, keys)
    decreases |keys|
  {
    if keys == {} {
      order := [];
    } else {
      var k :| k in keys;
      order := KeysHaveOrder(keys - {k});
      OneMoreKey(order, keys - {k}, k);
      assert keys - {k} + {k} == keys;
      order := order + [k];
    }
  }

  predicate EarliestOf(m: Entries, order: seq<string>, victim: string)
    requires Known(m, order)
  {
    victim in m && forall k | k in order :: m[victim].expiresAt <= m[k].expiresAt
  }

  /** The empty key expires strictly before every other key of the list. */
  predicate EmptyIsFirst(m: Entries, order: seq<string>)
    requires Known(m, order)
  {
    "" in m && forall k | k in order && k != "" :: m[""].expiresAt < m[k].expiresAt
  }

  /** What is kept from one key to the next. */
  predicate Sound(m: Entries, order: seq<string>, victim: string)
    requires Known(m, order)
  {
    && victim in order
    && (EarliestOf(m, order, victim) || EmptyIsFirst(m, order))
    && (victim == "" ==> EmptyIsFirst(m, order) && order[|order| - 1] == "")
    && ("" !in order ==> EarliestOf(m, order, victim))
  }

  lemma ScanStaysSound(m: Entries, front: seq<string>, k: string, before: string)
    requires Known(m, front) && Sound(m, front, before) && k in m && k !in front
    ensures Known(m, front + [k])
    ensures Sound(m, front + [k], if before == "" || m[k].expiresAt < m[before].expiresAt then k else before)
  {
    var order := front + [k];
    assert order[|order| - 1] == k && forall x | x in order :: x in front || x == k;
  }

  /** A scan finds an earliest entry, unless the empty key was it and was forgotten. */
  lemma {:induction false} ScanFinds(m: Entries, order: seq<string>)
    requires Known(m, order) && Distinct(order) && order != []
    ensures EarliestOf(m, order, Scan(m, order)) || EmptyIsFirst(m, order)
    ensures Scan(m, order) == "" ==> EmptyIsFirst(m, order) && order[|order| - 1] == ""
    ensures "" !in order ==> EarliestOf(m, order, Scan(m, order))
    ensures Sound(m, order, Scan(m, order))
  {
    var front, k := order[..|order| - 1], order[|order| - 1];
    assert order == front + [k];
    if front != [] {
      ScanFinds(m, front);
      assert k !in front;
      ScanStaysSound(m, front, k, Scan(m, front));
    }
  }

  /** The condition a caller can check: the empty key is unused, alone, or no earlier than some other entry. */
  predicate Unshadowed(m: Entries) {
    "" !in m || |m| == 1 || exists k :: k in m && k != "" && m[k].expiresAt <= m[""].expiresAt
  }

  lemma SoleKey(m: Entries, order: seq<string>)
    requires Orders(order, m) && "" in m && |m| == 1
    ensures order == [""]
  {
    forall k | k in m ensures k == "" {
      if k != "" {
        assert {k, ""} <= m.Keys;
        assert |{k, ""}| == 2;
        SubsetIsNoLarger({k, ""}, m.Keys);
        assert false;
      }
    }
    assert "" in order;
    assert forall i | 0 <= i < |order| :: order[i] in m && order[i] == "";
    var last := |order| - 1;
    assert order[0] == "" && order[last] == "";
    assert last == 0;
  }

  lemma {:induction false} SubsetIsNoLarger(a: set<string>, b: set<string>)
    requires a <= b
    ensures |a| <= |b|
    decreases |a|
  {
    if a != {} {
      var k :| k in a;
      SubsetIsNoLarger(a - {k}, b - {k});
    }
  }

  lemma UnshadowedScanIsEarliest(m: Entries, order: seq<string>)
    requires Orders(order, m) && m != map[] && Unshadowed(m)
    ensures Known(m, order) && Earliest(m, Scan(m, order))
  {
    var any :| any in m;
    assert any in order;
    ScanFinds(m, order);
    if "" in m && |m| == 1 {
      SoleKey(m, order);
    } else if "" in m {
      var k :| k in m && k != "" && m[k].expiresAt <= m[""].expiresAt;
      var i :| 0 <= i < |order| && order[i] == k;
    }
    forall k | k in m ensures m[Scan(m, order)].expiresAt <= m[k].expiresAt {
      assert k in order;
    }
  }

  lemma AnotherKey(m: Entries) returns (other: string)
    requires "" in m && |m| != 1
    ensures other in m && other != ""
  {
    assert |m.Keys| == |m|;
    assert m.Keys != {""};
    assert m.Keys == m.Keys - {""} + {""};
    other :| other in m.Keys - {""};
  }

  /** An order that yields the empty key first. */
  lemma EmptyKeyFirst(m: Entries) returns (order: seq<string>)
    requires "" in m && |m| != 1
    ensures Orders(order, m) && |order| > 1 && order[|order| - 1] != ""
  {
    var rest := KeysHaveOrder(m.Keys - {""});
    order := [""] + rest;
    assert forall i | 1 <= i < |order| :: order[i] == rest[i - 1] && order[i] in rest;
    forall k: string ensures k in order <==> k in m {
      assert k in order <==> k == "" || k in rest;
    }
    var other := AnotherKey(m);
    assert other in rest;
  }

  lemma VictimOf(m: Entries, order: seq<string>)
    requires Orders(order, m)
    ensures m != map[] ==> Scan(m, order) in m && (Unshadowed(m) ==> Earliest(m, Scan(m, order)))
  {
    if m != map[] {
      var any :| any in m;
      assert any in order;
      if Unshadowed(m) {
        UnshadowedScanIsEarliest(m, order);
      }
    }
  }

  lemma ShadowedScanCanMiss(m: Entries) returns (order: seq<string>)
    requires !Unshadowed(m)
    ensures Orders(order, m) && !Earliest(m, Scan(m, order))
  {
    order := EmptyKeyFirst(m);
    ScanFinds(m, order);
    var victim := Scan(m, order);
    assert victim != "" && victim in m;
    assert m[victim].expiresAt > m[""].expiresAt;
  }

  /**
   * Eviction takes an earliest-expiring entry in every iteration order exactly when the empty key cannot be forgotten.
   */
  lemma VictimIsEarliestExactlyWhen(m: Entries)
    requires m != map[]
    ensures (forall order | Orders(order, m) :: Earliest(m, Scan(m, order))) <==> Unshadowed(m)
  {
    if Unshadowed(m) {
      forall order | Orders(order, m) ensures Earliest(m, Scan(m, order)) {
        UnshadowedScanIsEarliest(m, order);
      }
    } else {
      var order := ShadowedScanCanMiss(m);
    }
  }

  /** A failing input: the empty key expires first, is met first, and another entry is evicted. */
  lemma EmptyKeyCanBeForgotten()
    ensures var (m, order) := (map["" := Entry("x", 1), "b" := Entry("y", 2)], ["", "b"]);
            Orders(order, m) && Scan(m, order) == "b" && !Earliest(m, "b")
  {
    var m, order := map["" := Entry("x", 1), "b" := Entry("y", 2)], ["", "b"];
    assert order[..1] == [""] && [""][..0] == [];
    assert Scan(m, [""]) == "";
    assert order[0] == "" && order[1] == "b";
    assert m[""].expiresAt < m["b"].expiresAt;
  }

  // ----- Whole runs -----

  /** A write, with the order in which its scan would meet the keys, or a sweep. */
  datatype Event = Write(key: string, value: string, ttl: int, now: int, order: seq<string>) | Sweep(now: int)

  function Next(maxSize: int, m: Entries, e: Event): Entries {
    match e
    case Write(key, value, ttl, now, order) =>
      if Known(m, order) then Written(maxSize, m, order, key, Entry(value, now + ttl)) else m
    case Sweep(now) => Kept(m, now)
  }

  function After(maxSize: int, es: seq<Event>): Entries {
    if es == [] then map[] else Next(maxSize, After(maxSize, es[..|es| - 1]), es[|es| - 1])
  }

  /** Every write scans the entries there are, in some order. */
  ghost predicate Runs(maxSize: int, es: seq<Event>) {
    es == [] || (
      var front, e := es[..|es| - 1], es[|es| - 1];
      && Runs(maxSize, front)
      && (e.Write? ==> Orders(e.order, After(maxSize, front))))
  }

  /** The reference: an unbounded map of the latest writes. */
  function Latest(es: seq<Event>): Entries {
    if es == [] then map[]
    else
      var before := Latest(es[..|es| - 1]);
      match es[|es| - 1]
      case Write(key, value, ttl, now, _) => before[key := Entry(value, now + ttl)]
      case Sweep(_) => before
  }

  /** Whatever the cache holds for a key is the key's latest write. */
  lemma {:induction false} HoldsOnlyLatestWrites(maxSize: int, es: seq<Event>, key: string)
    requires Runs(maxSize, es)
    ensures key in After(maxSize, es) ==> key in Latest(es) && After(maxSize, es)[key] == Latest(es)[key]
  {
    if es != [] {
      HoldsOnlyLatestWrites(maxSize, es[..|es| - 1], key);
    }
  }

  lemma SizeOfAdded(m: Entries, key: string, e: Entry)
    ensures |m[key := e]| <= |m| + 1
  {
    assert m[key := e].Keys == m.Keys + {key};
    if key in m {
      assert m.Keys + {key} == m.Keys;
    }
  }

  lemma WriteKeepsSize(maxSize: int, m: Entries, order: seq<string>, key: string, e: Entry)
    requires Orders(order, m) && |m| <= if maxSize >= 1 then maxSize else 1
    ensures |Written(maxSize, m, order, key, e)| <= if maxSize >= 1 then maxSize else 1
  {
    var room := if |m| >= maxSize then m - {Scan(m, order)} else m;
    SizeOfAdded(room, key, e);
    if |m| >= maxSize {
      assert room.Keys == m.Keys - {Scan(m, order)};
      if m != map[] {
        var any :| any in m;
        assert any in order;
        assert Scan(m, order) in m.Keys;
      } else {
        assert m.Keys == {} && room.Keys == {};
      }
    }
  }

  /** The cache never holds more than its maximum, or one entry when the maximum is less. */
  lemma {:induction false} SizeIsBounded(maxSize: int, es: seq<Event>)
    requires Runs(maxSize, es)
    ensures |After(maxSize, es)| <= if maxSize >= 1 then maxSize else 1
  {
    if es != [] {
      var front, e := es[..|es| - 1], es[|es| - 1];
      var m := After(maxSize, front);
      SizeIsBounded(maxSize, front);
      match e
      case Sweep(now) =>
        SubsetIsNoLarger(Kept(m, now).Keys, m.Keys);
      case Write(key, value, ttl, now, order) =>
        WriteKeepsSize(maxSize, m, order, key, Entry(value, now + ttl));
    }
  }

  /** A write at capacity evicts `key`, before which no entry expired unless the scan had forgotten the empty key. */
  ghost predicate Evicts(maxSize: int, m: Entries, e: Event, key: string) {
    && e.Write? && |m| >= maxSize && Orders(e.order, m)
    && key in m && Scan(m, e.order) == key && (Unshadowed(m) ==> Earliest(m, key))
  }

  predicate NotWritten(es: seq<Event>, from: int, key: string) {
    forall j | 0 <= j < |es| && from <= j && es[j].Write? :: es[j].key != key
  }

  /** Event `i` wrote another key and evicted the latest write of `key`, which no later event put back. */
  ghost predicate LostAt(maxSize: int, es: seq<Event>, i: int, key: string)
    requires 0 <= i < |es|
  {
    var m := After(maxSize, es[..i]);
    && Evicts(maxSize, m, es[i], key) && NotWritten(es, i, key)
    && key in Latest(es) && m[key] == Latest(es)[key]
  }

  predicate Before(es: seq<Event>, t: int) {
    forall i | 0 <= i < |es| :: es[i].now <= t
  }

  lemma NotWrittenMore(front: seq<Event>, e: Event, from: int, key: string)
    requires NotWritten(front, from, key) && (e.Write? ==> e.key != key)
    ensures NotWritten(front + [e], from, key)
  {
  }

  lemma LostEarlier(maxSize: int, front: seq<Event>, e: Event, i: int, key: string)
    requires 0 <= i < |front| && LostAt(maxSize, front, i, key) && (e.Write? ==> e.key != key)
    ensures LostAt(maxSize, front + [e], i, key)
  {
    var es := front + [e];
    assert es[..i] == front[..i] && es[i] == front[i] && es[..|es| - 1] == front;
    NotWrittenMore(front, e, i, key);
  }

  lemma LostNow(maxSize: int, es: seq<Event>, key: string)
    requires Runs(maxSize, es) && es != []
    requires key in After(maxSize, es[..|es| - 1]) && key !in After(maxSize, es) && es[|es| - 1].Write?
    ensures LostAt(maxSize, es, |es| - 1, key)
  {
    var front, e := es[..|es| - 1], es[|es| - 1];
    var m := After(maxSize, front);
    HoldsOnlyLatestWrites(maxSize, front, key);
    if Unshadowed(m) {
      UnshadowedScanIsEarliest(m, e.order);
    }
  }

  /**
   * An unexpired latest write is missing only because some write, at capacity, evicted it as the scan's choice;
   * no event is later than `t`.
   */
  lemma {:induction false} MissingWasEvicted(maxSize: int, es: seq<Event>, key: string, t: int)
    requires Runs(maxSize, es) && Before(es, t)
    requires key in Latest(es) && !Expired(Latest(es)[key], t) && key !in After(maxSize, es)
    ensures exists i :: 0 <= i < |es| && LostAt(maxSize, es, i, key)
  {
    var front, e := es[..|es| - 1], es[|es| - 1];
    HoldsOnlyLatestWrites(maxSize, front, key);
    if key in After(maxSize, front) {
      assert e.now <= t;
      if e.Write? {
        LostNow(maxSize, es, key);
      }
    } else {
      MissingWasEvicted(maxSize, front, key, t);
      var i :| 0 <= i < |front| && LostAt(maxSize, front, i, key);
      assert es == front + [e];
      LostEarlier(maxSize, front, e, i, key);
    }
  }

  predicate NamesKeys(es: seq<Event>) {
    forall i | 0 <= i < |es| :: es[i].Write? ==> es[i].key != ""
  }

  lemma {:induction false} EmptyIsNotHeld(maxSize: int, es: seq<Event>)
    requires NamesKeys(es)
    ensures "" !in After(maxSize, es)
  {
    if es != [] {
      EmptyIsNotHeld(maxSize, es[..|es| - 1]);
    }
  }

  /** With non-empty keys, such as the digests the gateway uses, no entry expired before the one evicted. */
  lemma MissingWasEarliest(maxSize: int, es: seq<Event>, key: string, t: int)
    requires Runs(maxSize, es) && NamesKeys(es) && Before(es, t)
    requires key in Latest(es) && !Expired(Latest(es)[key], t) && key !in After(maxSize, es)
    ensures exists i :: 0 <= i < |es| && LostAt(maxSize, es, i, key) && Earliest(After(maxSize, es[..i]), key)
  {
    MissingWasEvicted(maxSize, es, key, t);
    var i :| 0 <= i < |es| && LostAt(maxSize, es, i, key);
    EmptyIsNotHeld(maxSize, es[..i]);
  }
}
