/** Choosing the lights that affect one visible node during a pipeline run:
    a filter by light type and bounds, then a partial sort that puts
    directional lights first and the others by distance to the node. */
module LightAssignment {
  import opened Light

  /** The geometric tests the render sequence makes against one node: its
      box against a spot light's box, its box against a sphere, and the
      squared distance from its centre to a point. */
  datatype NodeGeometry = NodeGeometry(
    intersectsLightBox: LightView -> bool,
    intersectsSphere: (Vec3, real) -> bool,
    distanceSquared: Vec3 -> real)

  /** The filter: directional lights always, spot lights when the boxes
      meet, other lights when the node meets a sphere of twice the range. */
  predicate Affects(g: NodeGeometry, l: LightView)
  {
    match l.lightType
    case Directional => true
    case SpotLight => g.intersectsLightBox(l)
    case Point => g.intersectsSphere(l.absolutePosition, l.range * 2.0)
  }

  function FilterLights(g: NodeGeometry, ls: seq<LightView>): (r: seq<LightView>)
    ensures forall l :: l in r <==> l in ls && Affects(g, l)
    ensures |r| <= |ls|
  {
    if ls == [] then []
    else
      var rest := FilterLights(g, ls[..|ls| - 1]);
      var l := ls[|ls| - 1];
      if Affects(g, l) then rest + [l] else rest
  }

  /** The filter keeps each affecting light as often as it is listed and
      drops every other one. */
  lemma {:induction false} FilterLightsCount(g: NodeGeometry, ls: seq<LightView>, l: LightView)
    ensures multiset(FilterLights(g, ls))[l] == if Affects(g, l) then multiset(ls)[l] else 0
  {
    if ls != [] {
      var n := |ls| - 1;
      FilterLightsCount(g, ls[..n], l);
      assert ls == ls[..n] + [ls[n]];
    }
  }

  /** The filter acts light by light, so the kept lights stay in the order
      they are listed. */
  lemma {:induction false} FilterLightsAppend(g: NodeGeometry, a: seq<LightView>, b: seq<LightView>)
    ensures FilterLights(g, a + b) == FilterLights(g, a) + FilterLights(g, b)
    decreases |b|
  {
    if b == [] {
      assert a + b == a;
      assert FilterLights(g, b) == [];
    } else {
      var n := |b| - 1;
      FilterLightsAppend(g, a, b[..n]);
      assert (a + b)[..|a + b| - 1] == a + b[..n];
      assert (a + b)[|a + b| - 1] == b[n];
      var keep := if Affects(g, b[n]) then [b[n]] else [];
      assert FilterLights(g, a + b) == FilterLights(g, a + b[..n]) + keep;
      assert FilterLights(g, b) == FilterLights(g, b[..n]) + keep;
    }
  }

  function Rank(l: LightView): nat
  {
    if l.lightType == Directional then 0 else 1
  }

  /** The comparator handed to `std::partial_sort`. It measures the
      distance to `position()`, the position relative to the light's
      parent, while the filter above uses the absolute position. */
  predicate Less(g: NodeGeometry, a: LightView, b: LightView)
  {
    if a.lightType == Directional && b.lightType != Directional then true
    else if b.lightType == Directional && a.lightType != Directional then false
    else g.distanceSquared(a.position) < g.distanceSquared(b.position)
  }

  /** The comparator orders by (directional first, then distance). */
  lemma LessIsLexicographic(g: NodeGeometry, a: LightView, b: LightView)
    ensures Less(g, a, b) <==>
      (Rank(a) < Rank(b) || (Rank(a) == Rank(b) && g.distanceSquared(a.position) < g.distanceSquared(b.position)))
  {
  }

  /** The first position holding an entry that no other entry precedes. */
  function ArgMin(g: NodeGeometry, s: seq<LightView>): (i: nat)
    requires s != []
    ensures i < |s|
    ensures forall j :: 0 <= j < |s| ==> !Less(g, s[j], s[i])
  {
    if |s| == 1 then 0
    else
      var j := ArgMin(g, s[1..]) + 1;
      assert forall t :: 1 <= t < |s| ==> s[t] == s[1..][t - 1];
      if Less(g, s[j], s[0]) then j else 0
  }

  /** A model of `std::partial_sort(first, first + k, last)`: the first `k`
      entries are the least ones in order; the rest keep their relative
      order here, which the library leaves unspecified. */
  function PartialSort(g: NodeGeometry, s: seq<LightView>, k: nat): (r: seq<LightView>)
    ensures |r| == |s|
    ensures multiset(r) == multiset(s)
    decreases k
  {
    if k == 0 || s == [] then s
    else
      var i := ArgMin(g, s);
      var rest := s[..i] + s[i + 1..];
      assert s == s[..i] + [s[i]] + s[i + 1..];
      [s[i]] + PartialSort(g, rest, k - 1)
  }

  function Min(a: nat, b: nat): nat
  {
    if a < b then a else b
  }

  /** Each of the first `n` entries is preceded by no entry after it. */
  ghost predicate LeastFirst(g: NodeGeometry, r: seq<LightView>, n: nat)
  {
    n == 0 || r == [] ||
      ((forall y :: y in r[1..] ==> !Less(g, y, r[0])) && LeastFirst(g, r[1..], n - 1))
  }

  /** The same by positions: within the first `n`, no later entry precedes
      an earlier one. */
  lemma {:induction false} LeastFirstByIndex(g: NodeGeometry, r: seq<LightView>, n: nat)
    requires LeastFirst(g, r, n)
    ensures forall i, j :: 0 <= i < j < |r| && i < n ==> !Less(g, r[j], r[i])
  {
    if n > 0 && r != [] {
      LeastFirstByIndex(g, r[1..], n - 1);
      forall i, j | 0 <= i < j < |r| && i < n ensures !Less(g, r[j], r[i]) {
        assert r[j] == r[1..][j - 1];
        if i > 0 {
          assert r[i] == r[1..][i - 1];
        } else {
          assert r[j] in r[1..];
        }
      }
    }
  }

  /** An entry that no entry of `t` precedes, put in front of `t`, extends
      its ordered prefix by one. */
  lemma LeastFirstCons(g: NodeGeometry, x: LightView, t: seq<LightView>, n: nat)
    requires LeastFirst(g, t, n)
    requires forall y :: y in t ==> !Less(g, y, x)
    ensures LeastFirst(g, [x] + t, n + 1)
  {
    assert ([x] + t)[1..] == t;
  }

  /** No entry left after the first step precedes the entry it took. */
  lemma RestNotBefore(g: NodeGeometry, s: seq<LightView>, i: nat, t: seq<LightView>)
    requires s != [] && i == ArgMin(g, s)
    requires multiset(t) == multiset(s[..i] + s[i + 1..])
    ensures forall y :: y in t ==> !Less(g, y, s[i])
  {
    forall y | y in t ensures !Less(g, y, s[i]) {
      assert y in multiset(s[..i] + s[i + 1..]);
      assert y in s;
    }
  }

  /** The first step of the partial sort takes the least entry and sorts
      the rest, so an ordering fact about that result is one about the
      partial sort. */
  lemma PartialSortHead(g: NodeGeometry, s: seq<LightView>, k: nat)
    requires k > 0 && s != []
    requires LeastFirst(g, [s[ArgMin(g, s)]] + PartialSort(g, s[..ArgMin(g, s)] + s[ArgMin(g, s) + 1..], k - 1), k)
    ensures LeastFirst(g, PartialSort(g, s, k), k)
  {
  }

  /** The first k entries (all of them when there are fewer) are in
      comparator order, and none of them is preceded by any later entry. */
  lemma {:induction false} PartialSortOrders(g: NodeGeometry, s: seq<LightView>, k: nat)
    ensures LeastFirst(g, PartialSort(g, s, k), k)
    decreases k
  {
    if k > 0 && s != [] {
      var i := ArgMin(g, s);
      var rest := s[..i] + s[i + 1..];
      var tail := PartialSort(g, rest, k - 1);
      PartialSortOrders(g, rest, k - 1);
      RestNotBefore(g, s, i, tail);
      LeastFirstCons(g, s[i], tail, k - 1);
      PartialSortHead(g, s, k);
    }
  }

  /** The lights a renderable of this node is given: the filtered list with
      its first min(maxLights, n) entries ordered. */
  function LightsFor(g: NodeGeometry, visible: seq<LightView>, maxLights: nat): (r: seq<LightView>)
    ensures multiset(r) == multiset(FilterLights(g, visible))
    ensures forall l :: l in r <==> l in visible && Affects(g, l)
  {
    var kept := FilterLights(g, visible);
    var r := PartialSort(g, kept, Min(maxLights, |kept|));
    assert forall l :: l in r <==> l in multiset(kept);
    r
  }

  /** Within the ordered prefix, no directional light comes after a
      non-directional one, and every directional light of the list is in
      front of every non-directional light of the prefix. */
  lemma DirectionalFirst(g: NodeGeometry, visible: seq<LightView>, maxLights: nat, i: nat, j: nat)
    requires i < j < |LightsFor(g, visible, maxLights)|
    requires i < maxLights
    requires LightsFor(g, visible, maxLights)[i].lightType != Directional
    ensures LightsFor(g, visible, maxLights)[j].lightType != Directional
  {
    var kept := FilterLights(g, visible);
    PartialSortOrders(g, kept, Min(maxLights, |kept|));
    LeastFirstByIndex(g, PartialSort(g, kept, Min(maxLights, |kept|)), Min(maxLights, |kept|));
  }

  /** Within the ordered prefix, non-directional lights come in ascending
      distance from the node centre. */
  lemma NearestFirst(g: NodeGeometry, visible: seq<LightView>, maxLights: nat, i: nat, j: nat)
    requires i < j < |LightsFor(g, visible, maxLights)|
    requires i < maxLights
    requires LightsFor(g, visible, maxLights)[i].lightType != Directional
    ensures g.distanceSquared(LightsFor(g, visible, maxLights)[i].position)
      <= g.distanceSquared(LightsFor(g, visible, maxLights)[j].position)
  {
    var kept := FilterLights(g, visible);
    PartialSortOrders(g, kept, Min(maxLights, |kept|));
    LeastFirstByIndex(g, PartialSort(g, kept, Min(maxLights, |kept|)), Min(maxLights, |kept|));
    DirectionalFirst(g, visible, maxLights, i, j);
  }
}
