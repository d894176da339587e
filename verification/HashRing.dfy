/** The weighted consistent-hash ring: building, lookup, and what a change of nodes moves. */
module HashRing {
  import opened Labels

  const HASH_SPACE: nat := 0x1_0000_0000_0000_0000
  const VNODES_PER_WEIGHT: nat := 256

  type Hash = h: nat | h < HASH_SPACE

  /** Stands for the first eight bytes of a SHA-256 digest. */
  type HashKey = string -> Hash

  datatype Node = Node(name: string, weight: int)

  datatype VNode = VNode(hash: Hash, name: string)

  function Weight(n: Node): (w: nat)
    ensures w >= 1
  {
    if n.weight <= 0 then 1 else n.weight
  }

  /** The points a list of nodes puts on the circle, as a set. */
  ghost function Points(hashKey: HashKey, nodes: seq<Node>): set<VNode> {
    set n, i | n in nodes && 0 <= i < Weight(n) * VNODES_PER_WEIGHT :: VNode(hashKey(Label(n.name, i)), n.name)
  }

  /** How far clockwise of `h` a point lies. */
  function Distance(h: Hash, p: VNode): nat {
    if p.hash >= h then p.hash - h else p.hash + HASH_SPACE - h
  }

  ghost predicate Nearest(points: set<VNode>, h: Hash, p: VNode) {
    p in points && forall q <- points :: Distance(h, p) <= Distance(h, q)
  }

  /** `name` has the first point clockwise of `h`. */
  ghost predicate Owns(points: set<VNode>, h: Hash, name: string) {
    exists p <- points :: p.name == name && Nearest(points, h, p)
  }

  /** The answer a ring of `nodes` must give for `key`. */
  ghost predicate Answers(hashKey: HashKey, nodes: seq<Node>, key: string, name: string) {
    if nodes == [] then name == "" else Owns(Points(hashKey, nodes), hashKey(key), name)
  }

  /** No two providers share a position, so the order an unstable sort leaves ties in does not matter. */
  ghost predicate NoCrossTies(points: set<VNode>) {
    forall p <- points, q <- points | p.hash == q.hash :: p.name == q.name
  }

  /** The hash tells apart the labels that `nodes` put on the ring: finitely many, against 2^64 values. */
  ghost predicate TellsLabelsApart(hashKey: HashKey, nodes: seq<Node>) {
    forall n <- nodes, m <- nodes, i: nat, j: nat
      | i < Weight(n) * VNODES_PER_WEIGHT && j < Weight(m) * VNODES_PER_WEIGHT ::
      hashKey(Label(n.name, i)) == hashKey(Label(m.name, j)) ==> Label(n.name, i) == Label(m.name, j)
  }

  lemma CollisionFreeHashHasNoTies(hashKey: HashKey, nodes: seq<Node>)
    requires TellsLabelsApart(hashKey, nodes)
    ensures NoCrossTies(Points(hashKey, nodes))
  {
    forall p, q | p in Points(hashKey, nodes) && q in Points(hashKey, nodes) && p.hash == q.hash
      ensures p.name == q.name
    {
      var n, i :| n in nodes && 0 <= i < Weight(n) * VNODES_PER_WEIGHT && p == VNode(hashKey(Label(n.name, i)), n.name);
      var m, j :| m in nodes && 0 <= j < Weight(m) * VNODES_PER_WEIGHT && q == VNode(hashKey(Label(m.name, j)), m.name);
      LabelsAreDistinct(n.name, i, m.name, j);
    }
  }

  lemma OwnerIsUnique(points: set<VNode>, h: Hash, a: string, b: string)
    requires NoCrossTies(points) && Owns(points, h, a) && Owns(points, h, b)
    ensures a == b
  {
    var p :| p in points && p.name == a && Nearest(points, h, p);
    var q :| q in points && q.name == b && Nearest(points, h, q);
    assert Distance(h, p) == Distance(h, q);
  }

  lemma PointsOfNodes(hashKey: HashKey, nodes: seq<Node>)
    ensures Points(hashKey, nodes) == {} <==> nodes == []
  {
    if nodes != [] {
      assert VNode(hashKey(Label(nodes[0].name, 0)), nodes[0].name) in Points(hashKey, nodes);
    }
  }

  // ----- Building the ring -----

  function LabelPoints(hashKey: HashKey, name: string, count: nat): (s: seq<VNode>)
    ensures |s| == count
  {
    seq(count, i requires 0 <= i < count => VNode(hashKey(Label(name, i)), name))
  }

  /** The points of `nodes` in the order they are appended. */
  function AllPoints(hashKey: HashKey, nodes: seq<Node>): seq<VNode> {
    if nodes == [] then []
    else
      var n := nodes[|nodes| - 1];
      AllPoints(hashKey, nodes[..|nodes| - 1]) + LabelPoints(hashKey, n.name, Weight(n) * VNODES_PER_WEIGHT)
  }

  lemma {:induction false} AllPointsAreThePoints(hashKey: HashKey, nodes: seq<Node>)
    ensures forall v :: v in AllPoints(hashKey, nodes) <==> v in Points(hashKey, nodes)
  {
    if nodes != [] {
      var front, n := nodes[..|nodes| - 1], nodes[|nodes| - 1];
      AllPointsAreThePoints(hashKey, front);
      assert nodes == front + [n];
      var own := LabelPoints(hashKey, n.name, Weight(n) * VNODES_PER_WEIGHT);
      forall v ensures v in AllPoints(hashKey, nodes) <==> v in Points(hashKey, nodes) {
        if v in own {
          var i :| 0 <= i < |own| && own[i] == v;
          assert n in nodes;
        }
        if v in Points(hashKey, nodes) && v !in Points(hashKey, front) {
          var i :| 0 <= i < Weight(n) * VNODES_PER_WEIGHT && v == VNode(hashKey(Label(n.name, i)), n.name);
          assert own[i] == v;
        }
      }
    }
  }

  /** The weight table: a repeated name keeps its last weight. */
  function WeightsOf(nodes: seq<Node>): map<string, int> {
    if nodes == [] then map[]
    else
      var n := nodes[|nodes| - 1];
      WeightsOf(nodes[..|nodes| - 1])[n.name := Weight(n)]
  }

  /** A missing or non-positive weight counts as one. */
  function WeightIn(weights: map<string, int>, name: string): (w: int)
    ensures w >= 1
  {
    if name in weights && weights[name] > 0 then weights[name] else 1
  }

  /** On a ring built from `nodes` a provider weighs what its last listing says, and at least one. */
  lemma {:induction false} WeightIsLastListed(nodes: seq<Node>, i: nat)
    requires i < |nodes| && forall j | i < j < |nodes| :: nodes[j].name != nodes[i].name
    ensures WeightIn(WeightsOf(nodes), nodes[i].name) == if nodes[i].weight <= 0 then 1 else nodes[i].weight
  {
    if i < |nodes| - 1 {
      WeightIsLastListed(nodes[..|nodes| - 1], i);
    }
  }

  function TotalWeight(nodes: seq<Node>): int {
    if nodes == [] then 0
    else
      var last := nodes[|nodes| - 1].weight;
      TotalWeight(nodes[..|nodes| - 1]) + if last <= 0 then 1 else last
  }

  /** Each unit of weight puts 256 points on the ring. */
  lemma {:induction false} PointsAreWeighted(hashKey: HashKey, nodes: seq<Node>)
    ensures |AllPoints(hashKey, nodes)| == 256 * TotalWeight(nodes)
  {
    if nodes != [] {
      PointsAreWeighted(hashKey, nodes[..|nodes| - 1]);
    }
  }

  predicate Sorted(vnodes: seq<VNode>) {
    forall i, j | 0 <= i < j < |vnodes| :: vnodes[i].hash <= vnodes[j].hash
  }

  function InsertPoint(v: VNode, s: seq<VNode>): (r: seq<VNode>)
    ensures r != []
  {
    if s == [] || v.hash <= s[0].hash then [v] + s else [s[0]] + InsertPoint(v, s[1..])
  }

  lemma {:induction false} InsertPointAdds(v: VNode, s: seq<VNode>)
    ensures multiset(InsertPoint(v, s)) == multiset(s) + multiset{v}
  {
    if !(s == [] || v.hash <= s[0].hash) {
      InsertPointAdds(v, s[1..]);
      assert s == [s[0]] + s[1..];
    }
  }

  lemma {:induction false} InsertPointSorts(v: VNode, s: seq<VNode>)
    requires Sorted(s)
    ensures Sorted(InsertPoint(v, s))
    ensures InsertPoint(v, s)[0] == v || (s != [] && InsertPoint(v, s)[0] == s[0])
  {
    if !(s == [] || v.hash <= s[0].hash) {
      InsertPointSorts(v, s[1..]);
      var rest := InsertPoint(v, s[1..]);
      assert s[0].hash <= rest[0].hash;
      forall k | 0 <= k < |rest| ensures s[0].hash <= rest[k].hash {
        assert rest[0].hash <= rest[k].hash;
      }
    }
  }

  function Arranged(s: seq<VNode>): seq<VNode> {
    if s == [] then [] else InsertPoint(s[0], Arranged(s[1..]))
  }

  lemma {:induction false} ArrangedSorts(s: seq<VNode>)
    ensures Sorted(Arranged(s)) && multiset(Arranged(s)) == multiset(s)
  {
    if s != [] {
      ArrangedSorts(s[1..]);
      InsertPointSorts(s[0], Arranged(s[1..]));
      InsertPointAdds(s[0], Arranged(s[1..]));
      assert s == [s[0]] + s[1..];
    }
  }

  /** Stands for the library sort; callers rely only on the contract, which any sort meets. */
  method SortByHash(s: seq<VNode>) returns (r: seq<VNode>)
    ensures Sorted(r) && multiset(r) == multiset(s) && |r| == |s|
  {
    ArrangedSorts(s);
    r := Arranged(s);
    assert |r| == |multiset(r)|;
  }

  /** Smallest index whose hash is at least `h`, by bisection. */
  method Search(vnodes: seq<VNode>, h: Hash) returns (idx: nat)
    requires Sorted(vnodes)
    ensures idx <= |vnodes|
    ensures forall k | 0 <= k < idx :: vnodes[k].hash < h
    ensures forall k | idx <= k < |vnodes| :: vnodes[k].hash >= h
  {
    var i, j := 0, |vnodes|;
    while i < j
      invariant 0 <= i <= j <= |vnodes|
      invariant forall k | 0 <= k < i :: vnodes[k].hash < h
      invariant forall k | j <= k < |vnodes| :: vnodes[k].hash >= h
    {
      var mid := (i + j) / 2;
      if vnodes[mid].hash < h {
        i := mid + 1;
      } else {
        j := mid;
      }
    }
    idx := i;
  }

  class Ring {
    const hashKey: HashKey
    var vnodes: seq<VNode>
    var weights: map<string, int>
    var total: int

    /** This ring was built from `nodes`. */
    ghost predicate BuiltFrom(nodes: seq<Node>)
      reads this
    {
      && Sorted(vnodes)
      && multiset(vnodes) == multiset(AllPoints(hashKey, nodes))
      && |vnodes| == total
      && weights == WeightsOf(nodes)
    }

    constructor (hashKey: HashKey, nodes: seq<Node>)
      ensures this.hashKey == hashKey
      ensures BuiltFrom(nodes) && |vnodes| == 256 * TotalWeight(nodes)
    {
      PointsAreWeighted(hashKey, nodes);
      this.hashKey := hashKey;
      vnodes, weights, total := [], map[], 0;
      new;
      for j := 0 to |nodes|
        invariant vnodes == AllPoints(hashKey, nodes[..j])
        invariant |vnodes| == total
        invariant weights == WeightsOf(nodes[..j])
      {
        var n := nodes[j];
        assert nodes[..j + 1][..j] == nodes[..j];
        var w := n.weight;
        if w <= 0 {
          w := 1;
        }
        weights := weights[n.name := w];
        assert nodes[..j + 1][j] == n;
        total := total + w * VNODES_PER_WEIGHT;
        for i := 0 to w * VNODES_PER_WEIGHT
          invariant vnodes == AllPoints(hashKey, nodes[..j]) + LabelPoints(hashKey, n.name, i)
          invariant total == |AllPoints(hashKey, nodes[..j])| + w * VNODES_PER_WEIGHT
          invariant weights == WeightsOf(nodes[..j + 1])
        {
          vnodes := vnodes + [VNode(hashKey(Label(n.name, i)), n.name)];
        }
      }
      assert nodes[..|nodes|] == nodes;
      vnodes := SortByHash(vnodes);
    }

    lemma PointsOnRing(nodes: seq<Node>)
      requires BuiltFrom(nodes)
      ensures forall v :: v in vnodes <==> v in Points(hashKey, nodes)
      ensures vnodes == [] <==> nodes == []
    {
      AllPointsAreThePoints(hashKey, nodes);
      PointsOfNodes(hashKey, nodes);
      assert forall v :: v in vnodes <==> v in multiset(vnodes);
      assert forall v :: v in AllPoints(hashKey, nodes) <==> v in multiset(AllPoints(hashKey, nodes));
      if nodes != [] {
        var p :| p in Points(hashKey, nodes);
      }
      if vnodes != [] {
        assert vnodes[0] in Points(hashKey, nodes);
      }
    }

    method Lookup(key: string, ghost nodes: seq<Node>) returns (name: string)
      requires BuiltFrom(nodes)
      ensures Answers(hashKey, nodes, key, name)
    {
      PointsOnRing(nodes);
      if |vnodes| == 0 {
        return "";
      }
      var h := hashKey(key);
      var idx := Search(vnodes, h);
      if idx == |vnodes| {
        idx := 0;
      }
      assert Nearest(Points(hashKey, nodes), h, vnodes[idx]);
      name := vnodes[idx].name;
    }
  }

  // ----- What a change of nodes moves -----

  /** Removing points takes nothing away from an owner that keeps its point. */
  lemma OwnerSurvivesShrinking(big: set<VNode>, small: set<VNode>, h: Hash, name: string)
    requires small <= big && Owns(big, h, name)
    requires forall p | p in big && p.name == name :: p in small
    ensures Owns(small, h, name)
  {
    var p :| p in big && p.name == name && Nearest(big, h, p);
    assert Nearest(small, h, p);
  }

  function Without(nodes: seq<Node>, name: string): (r: seq<Node>)
    ensures forall n :: n in r <==> n in nodes && n.name != name
  {
    if nodes == [] then []
    else if nodes[0].name == name then Without(nodes[1..], name)
    else [nodes[0]] + Without(nodes[1..], name)
  }

  /** Removing a provider moves only the keys it owned, and leaves it none. */
  lemma RemovingANodeMovesOnlyItsKeys(hashKey: HashKey, nodes: seq<Node>, gone: string, key: string,
                                      before: string, after: string)
    requires NoCrossTies(Points(hashKey, nodes))
    requires Answers(hashKey, nodes, key, before)
    requires Answers(hashKey, Without(nodes, gone), key, after)
    ensures before != gone ==> after == before
    ensures Without(nodes, gone) != [] ==> after != gone
  {
    var big, small := Points(hashKey, nodes), Points(hashKey, Without(nodes, gone));
    PointsOfNodes(hashKey, nodes);
    PointsOfNodes(hashKey, Without(nodes, gone));
    assert small <= big;
    if before != gone && nodes != [] {
      OwnerSurvivesShrinking(big, small, hashKey(key), before);
      OwnerIsUnique(small, hashKey(key), before, after);
    }
  }

  /** `grown` extends `nodes` by more points of one provider: it is new, or its weight went up. */
  ghost predicate GrowsOnly(hashKey: HashKey, nodes: seq<Node>, grown: seq<Node>, name: string) {
    && Points(hashKey, nodes) <= Points(hashKey, grown)
    && forall p | p in Points(hashKey, grown) && p !in Points(hashKey, nodes) :: p.name == name
  }

  lemma AddingANodeGrows(hashKey: HashKey, nodes: seq<Node>, k: nat, n: Node)
    requires k <= |nodes|
    ensures GrowsOnly(hashKey, nodes, nodes[..k] + [n] + nodes[k..], n.name)
  {
    var grown := nodes[..k] + [n] + nodes[k..];
    assert forall m :: m in grown <==> m in nodes[..k] || m == n || m in nodes[k..];
    assert nodes == nodes[..k] + nodes[k..];
    assert forall m :: m in nodes <==> m in nodes[..k] || m in nodes[k..];
  }

  lemma RaisingAWeightGrows(hashKey: HashKey, nodes: seq<Node>, k: nat, weight: int)
    requires k < |nodes| && weight >= nodes[k].weight
    ensures GrowsOnly(hashKey, nodes, nodes[k := nodes[k].(weight := weight)], nodes[k].name)
  {
    var n := nodes[k].(weight := weight);
    var grown := nodes[k := n];
    assert forall m | m in nodes :: m == nodes[k] || m in grown by {
      forall m | m in nodes ensures m == nodes[k] || m in grown {
        var i :| 0 <= i < |nodes| && nodes[i] == m;
        assert i != k ==> grown[i] == m;
      }
    }
    assert forall m | m in grown :: m == n || m in nodes;
    assert grown[k] == n && Weight(nodes[k]) <= Weight(n);
    forall p | p in Points(hashKey, nodes) ensures p in Points(hashKey, grown) {
      var m, i :| m in nodes && 0 <= i < Weight(m) * VNODES_PER_WEIGHT && p == VNode(hashKey(Label(m.name, i)), m.name);
      if m == nodes[k] {
        assert n in grown && n.name == m.name && i < Weight(n) * VNODES_PER_WEIGHT;
      }
    }
  }

  /** Adding a provider, or raising its weight, moves keys only to that provider. */
  lemma GrowingANodeMovesKeysOnlyToIt(hashKey: HashKey, nodes: seq<Node>, grown: seq<Node>, name: string, key: string,
                                      before: string, after: string)
    requires GrowsOnly(hashKey, nodes, grown, name)
    requires NoCrossTies(Points(hashKey, grown))
    requires Answers(hashKey, nodes, key, before)
    requires Answers(hashKey, grown, key, after)
    ensures after == before || after == name
  {
    var big, small := Points(hashKey, grown), Points(hashKey, nodes);
    PointsOfNodes(hashKey, nodes);
    PointsOfNodes(hashKey, grown);
    if grown == [] {
      assert nodes == [];
    } else if after != name {
      OwnerSurvivesShrinking(big, small, hashKey(key), after);
      OwnerIsUnique(small, hashKey(key), before, after);
    }
  }
}
