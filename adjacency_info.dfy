/** Edge adjacency of a mesh. Vertices are first merged by position; each
    triangle then offers its three directed edges, each mapped to the
    corner opposite it; finally every directed edge is paired with the one
    running the other way, which belongs to the neighbouring triangle. */
module Adjacency {
  import opened Wrappers

  datatype Vec3 = Vec3(x: real, y: real, z: real)

  datatype Triangle = Triangle(a: nat, b: nat, c: nat)

  datatype Submesh = Submesh(contributesToEdgeList: bool, triangles: seq<Triangle>)

  /** The shared vertex positions and the submeshes in the order `each`
      visits them. */
  datatype Mesh = Mesh(positions: seq<Vec3>, submeshes: seq<Submesh>)

  datatype DirectedEdge = DirectedEdge(a: nat, b: nat)
  {
    function Reversed(): DirectedEdge
    {
      DirectedEdge(b, a)
    }
  }

  /** The face normal of the triangle with these corners, computed from the
      positions by a cross product; a parameter of the model. */
  type NormalFn = (nat, nat, nat) -> Vec3

  /** One edge record. A record shared by two triangles has its second
      opposite corner and second normal set; otherwise they are unset. */
  datatype EdgeInfo = EdgeInfo(
    indexes: DirectedEdge,
    firstTriangle: nat,
    secondTriangle: Option<nat>,
    triangleCount: nat,
    firstNormal: Vec3,
    secondNormal: Option<Vec3>)

  predicate InRange(t: Triangle, n: nat)
  {
    t.a < n && t.b < n && t.c < n
  }

  /** Every triangle the scan reads has its corners among the positions. */
  predicate ValidMesh(m: Mesh)
  {
    forall s :: s in m.submeshes ==> ValidSubmesh(s, |m.positions|)
  }

  predicate ValidSubmesh(s: Submesh, n: nat)
  {
    s.contributesToEdgeList ==> forall t :: t in s.triangles ==> InRange(t, n)
  }

  // ------------------------------------------------ merging by position

  /** The index a vertex is replaced by: the index already recorded for its
      position, or else the vertex itself, which is then recorded. */
  function Canon(pm: map<Vec3, nat>, positions: seq<Vec3>, v: nat): (r: (map<Vec3, nat>, nat))
    requires v < |positions|
    ensures positions[v] in r.0 && r.0[positions[v]] == r.1
    ensures r.0.Keys == pm.Keys + {positions[v]}
    ensures forall p :: p in pm ==> r.0[p] == pm[p]
    ensures positions[v] !in pm ==> r.1 == v
  {
    if positions[v] in pm then (pm, pm[positions[v]]) else (pm[positions[v] := v], v)
  }

  /** The triangle with each corner replaced in turn, a then b then c, and
      the position map after the three lookups. */
  function CanonTriangle(pm: map<Vec3, nat>, positions: seq<Vec3>, t: Triangle): (r: (map<Vec3, nat>, Triangle))
    requires InRange(t, |positions|)
  {
    var (pm1, a) := Canon(pm, positions, t.a);
    var (pm2, b) := Canon(pm1, positions, t.b);
    var (pm3, c) := Canon(pm2, positions, t.c);
    (pm3, Triangle(a, b, c))
  }

  /** `map::insert`: a key already present keeps its value. */
  function InsertNew(m: map<DirectedEdge, nat>, k: DirectedEdge, v: nat): (r: map<DirectedEdge, nat>)
    ensures r.Keys == m.Keys + {k}
    ensures forall e :: e in m ==> r[e] == m[e]
    ensures k !in m ==> r[k] == v
  {
    if k in m then m else m[k := v]
  }

  /** The three directed edges of a triangle, each mapped to the corner
      opposite it, inserted in the order ab, bc, ca. */
  function Offer(et: map<DirectedEdge, nat>, t: Triangle): (r: map<DirectedEdge, nat>)
  {
    InsertNew(InsertNew(InsertNew(et, DirectedEdge(t.a, t.b), t.c), DirectedEdge(t.b, t.c), t.a), DirectedEdge(t.c, t.a), t.b)
  }

  /** The two maps the scan builds. */
  datatype Scan = Scan(positionMap: map<Vec3, nat>, edgeTriangles: map<DirectedEdge, nat>)

  function AddTriangle(s: Scan, positions: seq<Vec3>, t: Triangle): Scan
    requires InRange(t, |positions|)
  {
    var (pm, ct) := CanonTriangle(s.positionMap, positions, t);
    Scan(pm, Offer(s.edgeTriangles, ct))
  }

  function ScanTriangles(s: Scan, positions: seq<Vec3>, ts: seq<Triangle>): Scan
    requires forall t :: t in ts ==> InRange(t, |positions|)
  {
    if ts == [] then s
    else
      var n := |ts| - 1;
      AddTriangle(ScanTriangles(s, positions, ts[..n]), positions, ts[n])
  }

  /** The scan over the submeshes; one that does not contribute to the edge
      list adds nothing. */
  function ScanSubmeshes(positions: seq<Vec3>, subs: seq<Submesh>): Scan
    requires ValidMesh(Mesh(positions, subs))
  {
    if subs == [] then Scan(map[], map[])
    else
      var n := |subs| - 1;
      assert ValidMesh(Mesh(positions, subs[..n])) by {
        forall s | s in subs[..n] ensures s in subs { }
      }
      var before := ScanSubmeshes(positions, subs[..n]);
      assert ValidSubmesh(subs[n], |positions|) by { assert subs[n] in subs; }
      if subs[n].contributesToEdgeList then ScanTriangles(before, positions, subs[n].triangles) else before
  }

  /** One more submesh of the scan. */
  lemma ScanSubmeshesStep(positions: seq<Vec3>, subs: seq<Submesh>, i: nat)
    requires ValidMesh(Mesh(positions, subs)) && i < |subs|
    ensures ValidMesh(Mesh(positions, subs[..i])) && ValidMesh(Mesh(positions, subs[..i + 1]))
    ensures subs[i].contributesToEdgeList ==> forall t :: t in subs[i].triangles ==> InRange(t, |positions|)
    ensures ScanSubmeshes(positions, subs[..i + 1]) ==
      if subs[i].contributesToEdgeList then ScanTriangles(ScanSubmeshes(positions, subs[..i]), positions, subs[i].triangles)
      else ScanSubmeshes(positions, subs[..i])
  {
    assert subs[..i + 1][..i] == subs[..i];
    assert subs[i] in subs;
    assert ValidMesh(Mesh(positions, subs[..i + 1])) by {
      forall s | s in subs[..i + 1] ensures s in subs { }
    }
  }

  /** The directed-edge map a mesh leads to. */
  function EdgeTriangles(m: Mesh): map<DirectedEdge, nat>
    requires ValidMesh(m)
  {
    ScanSubmeshes(m.positions, m.submeshes).edgeTriangles
  }

  /** A vertex that is the recorded representative of its own position. */
  predicate Canonical(pm: map<Vec3, nat>, positions: seq<Vec3>, v: nat)
  {
    v < |positions| && positions[v] in pm && pm[positions[v]] == v
  }

  /** The scan's invariant: every recorded index has the position it is
      recorded for, and every edge and opposite corner is a representative,
      so no two distinct indices in the edge map share a position. */
  predicate ScanValid(s: Scan, positions: seq<Vec3>)
  {
    (forall p :: p in s.positionMap ==> s.positionMap[p] < |positions| && positions[s.positionMap[p]] == p) &&
    (forall e :: e in s.edgeTriangles ==>
      Canonical(s.positionMap, positions, e.a) && Canonical(s.positionMap, positions, e.b) &&
      Canonical(s.positionMap, positions, s.edgeTriangles[e]))
  }

  /** Canonicalising a vertex keeps the position map valid, does not move
      any existing representative and yields a representative with the
      vertex's position. */
  lemma CanonValid(pm: map<Vec3, nat>, positions: seq<Vec3>, v: nat)
    requires v < |positions|
    requires forall p :: p in pm ==> pm[p] < |positions| && positions[pm[p]] == p
    ensures var (pm1, w) := Canon(pm, positions, v);
      (forall p :: p in pm1 ==> pm1[p] < |positions| && positions[pm1[p]] == p) &&
      Canonical(pm1, positions, w) && positions[w] == positions[v] &&
      (forall x :: Canonical(pm, positions, x) ==> Canonical(pm1, positions, x))
  {
  }

  /** Canonicalising the three corners keeps the position map valid and
      only extends it; each new corner is a representative at the old
      corner's position. */
  lemma CanonTriangleValid(pm: map<Vec3, nat>, positions: seq<Vec3>, t: Triangle)
    requires InRange(t, |positions|)
    requires forall p :: p in pm ==> pm[p] < |positions| && positions[pm[p]] == p
    ensures var (pm3, ct) := CanonTriangle(pm, positions, t);
      (forall p :: p in pm3 ==> pm3[p] < |positions| && positions[pm3[p]] == p) &&
      (forall p :: p in pm ==> p in pm3 && pm3[p] == pm[p]) &&
      (forall x :: Canonical(pm, positions, x) ==> Canonical(pm3, positions, x)) &&
      Canonical(pm3, positions, ct.a) && Canonical(pm3, positions, ct.b) && Canonical(pm3, positions, ct.c) &&
      positions[ct.a] == positions[t.a] && positions[ct.b] == positions[t.b] && positions[ct.c] == positions[t.c]
  {
    var (pm1, a) := Canon(pm, positions, t.a);
    CanonValid(pm, positions, t.a);
    var (pm2, b) := Canon(pm1, positions, t.b);
    CanonValid(pm1, positions, t.b);
    CanonValid(pm2, positions, t.c);
  }

  /** Offering a triangle's edges only extends the edge map: an edge keeps
      the corner first recorded for it, and a new edge is one of the
      triangle's three, mapped to the corner opposite it. */
  lemma OfferExtends(et: map<DirectedEdge, nat>, ct: Triangle)
    ensures var et1 := Offer(et, ct);
      (forall e :: e in et ==> e in et1 && et1[e] == et[e]) &&
      (forall e :: e in et1 && e !in et ==>
        (e == DirectedEdge(ct.a, ct.b) && et1[e] == ct.c) ||
        (e == DirectedEdge(ct.b, ct.c) && et1[e] == ct.a) ||
        (e == DirectedEdge(ct.c, ct.a) && et1[e] == ct.b))
  {
  }

  /** One triangle keeps the scan valid. */
  lemma AddTriangleValid(s: Scan, positions: seq<Vec3>, t: Triangle)
    requires InRange(t, |positions|) && ScanValid(s, positions)
    ensures ScanValid(AddTriangle(s, positions, t), positions)
  {
    var (pm3, ct) := CanonTriangle(s.positionMap, positions, t);
    CanonTriangleValid(s.positionMap, positions, t);
    var et1 := Offer(s.edgeTriangles, ct);
    OfferExtends(s.edgeTriangles, ct);
    forall e | e in et1
      ensures Canonical(pm3, positions, e.a) && Canonical(pm3, positions, e.b) && Canonical(pm3, positions, et1[e])
    {
      if e in s.edgeTriangles {
        assert Canonical(s.positionMap, positions, e.a) && Canonical(s.positionMap, positions, e.b);
        assert Canonical(s.positionMap, positions, s.edgeTriangles[e]);
      }
    }
  }

  /** The scan over any triangles keeps it valid. */
  lemma {:induction false} ScanTrianglesValid(s: Scan, positions: seq<Vec3>, ts: seq<Triangle>)
    requires forall t :: t in ts ==> InRange(t, |positions|)
    requires ScanValid(s, positions)
    ensures ScanValid(ScanTriangles(s, positions, ts), positions)
  {
    if ts != [] {
      var n := |ts| - 1;
      ScanTrianglesValid(s, positions, ts[..n]);
      AddTriangleValid(ScanTriangles(s, positions, ts[..n]), positions, ts[n]);
    }
  }

  /** The scan of a whole mesh is valid: edge endpoints are the merged
      representatives. */
  lemma {:induction false} ScanSubmeshesValid(positions: seq<Vec3>, subs: seq<Submesh>)
    requires ValidMesh(Mesh(positions, subs))
    ensures ScanValid(ScanSubmeshes(positions, subs), positions)
  {
    if subs != [] {
      var n := |subs| - 1;
      assert ValidMesh(Mesh(positions, subs[..n])) by {
        forall s | s in subs[..n] ensures s in subs { }
      }
      ScanSubmeshesValid(positions, subs[..n]);
      assert ValidSubmesh(subs[n], |positions|) by { assert subs[n] in subs; }
      if subs[n].contributesToEdgeList {
        ScanTrianglesValid(ScanSubmeshes(positions, subs[..n]), positions, subs[n].triangles);
      }
    }
  }

  /** Two edge-map endpoints at the same position are the same index. */
  lemma MergedByPosition(m: Mesh, e: DirectedEdge, f: DirectedEdge)
    requires ValidMesh(m)
    requires e in EdgeTriangles(m) && f in EdgeTriangles(m)
    ensures e.a < |m.positions| && e.b < |m.positions| && f.a < |m.positions| && f.b < |m.positions|
    ensures m.positions[e.a] == m.positions[f.a] ==> e.a == f.a
    ensures m.positions[e.a] == m.positions[f.b] ==> e.a == f.b
    ensures m.positions[e.b] == m.positions[f.b] ==> e.b == f.b
  {
    ScanSubmeshesValid(m.positions, m.submeshes);
  }

  // ------------------------------------------------------------ pairing

  /** `find_if` over the records: the first one with these indexes. */
  function FindEdge(edges: seq<EdgeInfo>, e: DirectedEdge): (r: Option<nat>)
    ensures r.Some? ==> (r.value < |edges| && edges[r.value].indexes == e &&
      forall i :: 0 <= i < r.value ==> edges[i].indexes != e)
    ensures r.None? ==> forall i :: 0 <= i < |edges| ==> edges[i].indexes != e
  {
    if edges == [] then None
    else
      var n := |edges| - 1;
      match FindEdge(edges[..n], e)
      case Some(i) => assert edges[i] == edges[..n][i]; Some(i)
      case None =>
        assert forall i :: 0 <= i < n ==> edges[i] == edges[..n][i];
        if edges[n].indexes == e then Some(n) else None
  }

  /** The record of a second triangle on an existing edge. */
  function Shared(r: EdgeInfo, t: nat, normal: NormalFn): EdgeInfo
  {
    r.(secondTriangle := Some(t), triangleCount := 2, secondNormal := Some(normal(r.indexes.b, r.indexes.a, t)))
  }

  /** The record of an edge seen first. */
  function NewEdge(k: DirectedEdge, t: nat, normal: NormalFn): EdgeInfo
  {
    EdgeInfo(k, t, None, 1, normal(k.a, k.b, t), None)
  }

  /** One directed edge: it completes the record of its reverse if there is
      one, and otherwise starts a record of its own. */
  function PairEdge(edges: seq<EdgeInfo>, k: DirectedEdge, t: nat, normal: NormalFn): seq<EdgeInfo>
  {
    match FindEdge(edges, k.Reversed())
    case Some(j) => edges[j := Shared(edges[j], t, normal)]
    case None => edges + [NewEdge(k, t, normal)]
  }

  /** The records after the directed edges `keys` of `m`, in this order. */
  function Paired(m: map<DirectedEdge, nat>, keys: seq<DirectedEdge>, normal: NormalFn): seq<EdgeInfo>
    requires forall k :: k in keys ==> k in m
  {
    if keys == [] then []
    else
      var n := |keys| - 1;
      PairEdge(Paired(m, keys[..n], normal), keys[n], m[keys[n]], normal)
  }

  /** The order the edge map is iterated in: each key exactly once. */
  predicate Enumerates(keys: seq<DirectedEdge>, m: map<DirectedEdge, nat>)
  {
    (forall k :: k in keys ==> k in m) && (forall k :: k in m ==> k in keys) &&
    (forall i, j :: 0 <= i < j < |keys| ==> keys[i] != keys[j])
  }

  predicate SamePair(e: DirectedEdge, f: DirectedEdge)
  {
    e == f || e == f.Reversed()
  }

  /** A well-formed record after the edges `done` of `m`: its own edge was
      seen and gave its first triangle; it holds two triangles exactly when
      the reverse edge was seen too (and is a different edge), the second
      being the reverse edge's corner. */
  predicate GoodRecord(r: EdgeInfo, m: map<DirectedEdge, nat>, done: set<DirectedEdge>, normal: NormalFn)
  {
    var k := r.indexes;
    k in done && k in m && r.firstTriangle == m[k] && r.firstNormal == normal(k.a, k.b, r.firstTriangle) &&
    (r.triangleCount == 1 || r.triangleCount == 2) &&
    (r.triangleCount == 2 <==> k.Reversed() in done && k.a != k.b) &&
    (r.triangleCount == 1 ==> r.secondTriangle.None? && r.secondNormal.None?) &&
    (r.triangleCount == 2 ==> (k.Reversed() in m && r.secondTriangle == Some(m[k.Reversed()]) &&
      r.secondNormal == Some(normal(k.b, k.a, m[k.Reversed()]))))
  }

  /** Some record holds the edge `k`: as its own edge, or as the second
      side of the reverse edge's record. */
  predicate Covered(edges: seq<EdgeInfo>, k: DirectedEdge)
  {
    exists i :: 0 <= i < |edges| && (edges[i].indexes == k || (edges[i].indexes == k.Reversed() && edges[i].triangleCount == 2))
  }

  /** What the records are once the edges `done` are paired: each record is
      well formed, no two records are for the same unordered vertex pair,
      and every edge seen is held by a record. */
  predicate Records(edges: seq<EdgeInfo>, m: map<DirectedEdge, nat>, done: set<DirectedEdge>, normal: NormalFn)
  {
    (forall i :: 0 <= i < |edges| ==> GoodRecord(edges[i], m, done, normal)) &&
    (forall i, j :: 0 <= i < j < |edges| ==> !SamePair(edges[i].indexes, edges[j].indexes)) &&
    (forall k :: k in done ==> Covered(edges, k))
  }

  /** Pairing a new edge keeps the records well formed. */
  lemma PairEdgeRecords(edges: seq<EdgeInfo>, m: map<DirectedEdge, nat>, done: set<DirectedEdge>, k: DirectedEdge, normal: NormalFn)
    requires Records(edges, m, done, normal)
    requires k in m && k !in done
    ensures Records(PairEdge(edges, k, m[k], normal), m, done + {k}, normal)
  {
    forall i | 0 <= i < |edges|
      ensures edges[i].indexes != k
    {
      assert GoodRecord(edges[i], m, done, normal);
    }
    match FindEdge(edges, k.Reversed())
    case Some(j) => PairShared(edges, m, done, k, j, normal);
    case None => PairNew(edges, m, done, k, normal);
  }

  /** The reverse edge has a record: it becomes the record of both. */
  lemma PairShared(edges: seq<EdgeInfo>, m: map<DirectedEdge, nat>, done: set<DirectedEdge>, k: DirectedEdge, j: nat, normal: NormalFn)
    requires Records(edges, m, done, normal)
    requires k in m && k !in done
    requires forall i :: 0 <= i < |edges| ==> edges[i].indexes != k
    requires j < |edges| && edges[j].indexes == k.Reversed()
    ensures Records(edges[j := Shared(edges[j], m[k], normal)], m, done + {k}, normal)
  {
    var d1 := done + {k};
    var after := edges[j := Shared(edges[j], m[k], normal)];
    assert GoodRecord(edges[j], m, done, normal);
    forall i | 0 <= i < |after|
      ensures GoodRecord(after[i], m, d1, normal)
    {
      assert GoodRecord(edges[i], m, done, normal);
      if i != j {
        assert !SamePair(edges[i].indexes, edges[j].indexes) by {
          if i < j {
            assert !SamePair(edges[i].indexes, edges[j].indexes);
          } else {
            assert !SamePair(edges[j].indexes, edges[i].indexes);
          }
        }
      }
    }
    forall x | x in d1
      ensures Covered(after, x)
    {
      if x == k {
        assert after[j].indexes == x.Reversed() && after[j].triangleCount == 2;
      } else {
        var i :| 0 <= i < |edges| && (edges[i].indexes == x || (edges[i].indexes == x.Reversed() && edges[i].triangleCount == 2));
        assert after[i].indexes == edges[i].indexes && after[i].triangleCount >= edges[i].triangleCount;
      }
    }
  }

  /** Neither the edge nor its reverse has a record: a record of its own is
      appended. */
  lemma PairNew(edges: seq<EdgeInfo>, m: map<DirectedEdge, nat>, done: set<DirectedEdge>, k: DirectedEdge, normal: NormalFn)
    requires Records(edges, m, done, normal)
    requires k in m && k !in done
    requires forall i :: 0 <= i < |edges| ==> edges[i].indexes != k && edges[i].indexes != k.Reversed()
    ensures Records(edges + [NewEdge(k, m[k], normal)], m, done + {k}, normal)
  {
    var d1 := done + {k};
    var after := edges + [NewEdge(k, m[k], normal)];
    assert k.Reversed().Reversed() == k;
    assert !Covered(edges, k.Reversed());
    forall i | 0 <= i < |after|
      ensures GoodRecord(after[i], m, d1, normal)
    {
      if i < |edges| {
        assert GoodRecord(edges[i], m, done, normal);
        assert edges[i].indexes.Reversed() != k;
      }
    }
    forall x | x in d1
      ensures Covered(after, x)
    {
      if x == k {
        assert after[|edges|].indexes == x;
      } else {
        var i :| 0 <= i < |edges| && (edges[i].indexes == x || (edges[i].indexes == x.Reversed() && edges[i].triangleCount == 2));
        assert after[i] == edges[i];
      }
    }
  }

  /** The keys of a sequence as a set. */
  function KeySet(keys: seq<DirectedEdge>): (r: set<DirectedEdge>)
    ensures forall k :: k in r <==> k in keys
  {
    if keys == [] then {} else KeySet(keys[..|keys| - 1]) + {keys[|keys| - 1]}
  }

  /** Pairing distinct edges of `m` in any order leaves well-formed records
      that hold every edge paired. */
  lemma {:induction false} PairedRecords(m: map<DirectedEdge, nat>, keys: seq<DirectedEdge>, normal: NormalFn)
    requires forall k :: k in keys ==> k in m
    requires forall i, j :: 0 <= i < j < |keys| ==> keys[i] != keys[j]
    ensures Records(Paired(m, keys, normal), m, KeySet(keys), normal)
  {
    if keys != [] {
      var n := |keys| - 1;
      PairedRecords(m, keys[..n], normal);
      assert forall i :: 0 <= i < n ==> keys[..n][i] == keys[i];
      PairEdgeRecords(Paired(m, keys[..n], normal), m, KeySet(keys[..n]), keys[n], normal);
    }
  }

  /** After all the edges of the map are paired, whatever the order: every
      record holds one or two triangles, two exactly when the reverse edge
      is in the map too; no unordered vertex pair has two records; and every
      directed edge in the map is held by a record. */
  lemma RebuiltEdges(m: map<DirectedEdge, nat>, keys: seq<DirectedEdge>, normal: NormalFn)
    requires Enumerates(keys, m)
    ensures Records(Paired(m, keys, normal), m, m.Keys, normal)
  {
    PairedRecords(m, keys, normal);
    assert KeySet(keys) == m.Keys;
  }

  class AdjacencyInfo {
    const mesh: Option<Mesh>
    var edges: seq<EdgeInfo>

    constructor (mesh: Option<Mesh>)
      ensures this.mesh == mesh && edges == []
    {
      this.mesh := mesh;
      edges := [];
    }

    /** rebuild: without a mesh the records stay as they were; otherwise
        they are rebuilt from scratch by pairing the mesh's directed edges
        in the order the edge map is iterated (`order`, which lists each of
        its edges once). */
    method Rebuild(order: seq<DirectedEdge>, normal: NormalFn)
      requires mesh.Some? ==> ValidMesh(mesh.value) && Enumerates(order, EdgeTriangles(mesh.value))
      modifies this`edges
      ensures mesh.None? ==> edges == old(edges)
      ensures mesh.Some? ==> edges == Paired(EdgeTriangles(mesh.value), order, normal)
    {
      if mesh.None? {
        return;
      }
      var positions := mesh.value.positions;
      var subs := mesh.value.submeshes;
      var scan := ScanMesh(positions, subs);
      var edgeTriangles := scan.edgeTriangles;
      edges := [];
      var i := 0;
      while i < |order|
        invariant 0 <= i <= |order|
        invariant edges == Paired(edgeTriangles, order[..i], normal)
      {
        assert order[..i + 1][..i] == order[..i];
        var k := order[i];
        var existing := FindEdge(edges, k.Reversed());
        if existing.Some? {
          var j := existing.value;
          edges := edges[j := Shared(edges[j], edgeTriangles[k], normal)];
        } else {
          edges := edges + [NewEdge(k, edgeTriangles[k], normal)];
        }
        i := i + 1;
      }
      assert order[..i] == order;
    }

    /** The position map and edge map, built submesh by submesh and
        triangle by triangle. */
    static method ScanMesh(positions: seq<Vec3>, subs: seq<Submesh>) returns (scan: Scan)
      requires ValidMesh(Mesh(positions, subs))
      ensures scan == ScanSubmeshes(positions, subs)
    {
      var positionMap: map<Vec3, nat> := map[];
      var edgeTriangles: map<DirectedEdge, nat> := map[];
      var si := 0;
      while si < |subs|
        invariant 0 <= si <= |subs|
        invariant ValidMesh(Mesh(positions, subs[..si]))
        invariant Scan(positionMap, edgeTriangles) == ScanSubmeshes(positions, subs[..si])
      {
        ScanSubmeshesStep(positions, subs, si);
        var sub := subs[si];
        if sub.contributesToEdgeList {
          assert sub in subs;
          positionMap, edgeTriangles := ScanTrianglesOf(positionMap, edgeTriangles, positions, sub.triangles);
        }
        si := si + 1;
      }
      assert subs[..si] == subs;
      scan := Scan(positionMap, edgeTriangles);
    }

    /** each_triangle over one submesh. */
    static method ScanTrianglesOf(pm: map<Vec3, nat>, et: map<DirectedEdge, nat>, positions: seq<Vec3>, ts: seq<Triangle>)
      returns (pm': map<Vec3, nat>, et': map<DirectedEdge, nat>)
      requires forall t :: t in ts ==> InRange(t, |positions|)
      ensures Scan(pm', et') == ScanTriangles(Scan(pm, et), positions, ts)
    {
      pm', et' := pm, et;
      var i := 0;
      while i < |ts|
        invariant 0 <= i <= |ts|
        invariant Scan(pm', et') == ScanTriangles(Scan(pm, et), positions, ts[..i])
      {
        assert ts[..i + 1][..i] == ts[..i];
        assert ts[i] in ts;
        pm', et' := AddTriangleTo(pm', et', positions, ts[i]);
        i := i + 1;
      }
      assert ts[..i] == ts;
    }

    /** One triangle: each corner is replaced by the first index known for
        its position (recording the corner itself when there is none), then
        the three directed edges are inserted. */
    static method AddTriangleTo(pm: map<Vec3, nat>, et: map<DirectedEdge, nat>, positions: seq<Vec3>, t: Triangle)
      returns (pm': map<Vec3, nat>, et': map<DirectedEdge, nat>)
      requires InRange(t, |positions|)
      ensures Scan(pm', et') == AddTriangle(Scan(pm, et), positions, t)
    {
      var a, b, c;
      pm', a := CanonCorner(pm, positions, t.a);
      pm', b := CanonCorner(pm', positions, t.b);
      pm', c := CanonCorner(pm', positions, t.c);
      et' := InsertEdge(et, DirectedEdge(a, b), c);
      et' := InsertEdge(et', DirectedEdge(b, c), a);
      et' := InsertEdge(et', DirectedEdge(c, a), b);
    }

    /** The lookup-or-record of one corner. */
    static method CanonCorner(pm: map<Vec3, nat>, positions: seq<Vec3>, v: nat) returns (pm': map<Vec3, nat>, w: nat)
      requires v < |positions|
      ensures (pm', w) == Canon(pm, positions, v)
    {
      if positions[v] in pm {
        pm', w := pm, pm[positions[v]];
      } else {
        pm', w := pm[positions[v] := v], v;
      }
    }

    /** `map::insert` of one directed edge. */
    static method InsertEdge(et: map<DirectedEdge, nat>, k: DirectedEdge, v: nat) returns (et': map<DirectedEdge, nat>)
      ensures et' == InsertNew(et, k, v)
    {
      et' := et;
      if k !in et {
        et' := et[k := v];
      }
    }

    /** each_edge: the callback gets the indices 0, 1, 2, ... with the
        records in order; the results are what it returned. */
    method EachEdge<T>(callback: (nat, EdgeInfo) -> T) returns (results: seq<T>)
      ensures |results| == |edges|
      ensures forall i :: 0 <= i < |edges| ==> results[i] == callback(i, edges[i])
    {
      results := [];
      var i := 0;
      while i < |edges|
        invariant 0 <= i <= |edges| && |results| == i
        invariant forall k :: 0 <= k < i ==> results[k] == callback(k, edges[k])
      {
        results := results + [callback(i, edges[i])];
        i := i + 1;
      }
    }
  }
}
