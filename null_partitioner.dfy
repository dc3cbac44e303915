/** The null partitioner: no spatial structure, just four id sets that
    staged writes add to and remove from, and a visibility query that tests
    every member against the camera frustum. */
module NullPartitioner {
  import opened Wrappers
  import opened Ordered
  import opened Light

  datatype WriteOperation = WriteAdd | WriteRemove | WriteUpdate

  /** A queued change; each id is 0 when unset, and the first set one, in the
      order actor, geom, light, particle system, names the target. */
  datatype StagedWrite = StagedWrite(
    operation: WriteOperation,
    actorId: nat,
    geomId: nat,
    lightId: nat,
    particleSystemId: nat)

  datatype Kind = Actors | Geoms | Lights | ParticleSystems

  datatype Membership = Membership(
    particleSystems: set<nat>,
    actors: set<nat>,
    geoms: set<nat>,
    lights: set<nat>)

  function SetOf(m: Membership, k: Kind): set<nat>
  {
    match k
    case Actors => m.actors
    case Geoms => m.geoms
    case Lights => m.lights
    case ParticleSystems => m.particleSystems
  }

  function WithSet(m: Membership, k: Kind, s: set<nat>): (r: Membership)
    ensures SetOf(r, k) == s
    ensures forall k' :: k' != k ==> SetOf(r, k') == SetOf(m, k')
  {
    match k
    case Actors => m.(actors := s)
    case Geoms => m.(geoms := s)
    case Lights => m.(lights := s)
    case ParticleSystems => m.(particleSystems := s)
  }

  /** The set a write is aimed at and the id it carries, if any id is set. */
  function Target(w: StagedWrite): (t: Option<(Kind, nat)>)
    ensures t.None? <==> w.actorId == 0 && w.geomId == 0 && w.lightId == 0 && w.particleSystemId == 0
    ensures t.Some? ==> t.value.1 != 0
    ensures t.Some? && t.value.0 == Geoms ==> w.actorId == 0
    ensures t.Some? && t.value.0 == Lights ==> w.actorId == 0 && w.geomId == 0
    ensures t.Some? && t.value.0 == ParticleSystems ==> w.actorId == 0 && w.geomId == 0 && w.lightId == 0
  {
    if w.actorId != 0 then Some((Actors, w.actorId))
    else if w.geomId != 0 then Some((Geoms, w.geomId))
    else if w.lightId != 0 then Some((Lights, w.lightId))
    else if w.particleSystemId != 0 then Some((ParticleSystems, w.particleSystemId))
    else None
  }

  /** apply_staged_write on the four sets. */
  function Apply(m: Membership, w: StagedWrite): (r: Membership)
    ensures Target(w).None? || w.operation == WriteUpdate ==> r == m
    ensures Target(w).Some? && w.operation == WriteAdd ==>
      r == WithSet(m, Target(w).value.0, SetOf(m, Target(w).value.0) + {Target(w).value.1})
    ensures Target(w).Some? && w.operation == WriteRemove ==>
      r == WithSet(m, Target(w).value.0, SetOf(m, Target(w).value.0) - {Target(w).value.1})
  {
    match Target(w)
    case None => m
    case Some((k, id)) =>
      match w.operation
      case WriteAdd => WithSet(m, k, SetOf(m, k) + {id})
      case WriteRemove => WithSet(m, k, SetOf(m, k) - {id})
      case WriteUpdate => m
  }

  /** A write changes at most the one set it targets. */
  lemma ApplyTouchesOnlyTarget(m: Membership, w: StagedWrite, k: Kind)
    requires Target(w).None? || Target(w).value.0 != k
    ensures SetOf(Apply(m, w), k) == SetOf(m, k)
  {
  }

  /** Removing an id that is not there changes nothing. */
  lemma RemoveAbsentIsNoOp(m: Membership, w: StagedWrite)
    requires w.operation == WriteRemove && Target(w).Some?
    requires Target(w).value.1 !in SetOf(m, Target(w).value.0)
    ensures Apply(m, w) == m
  {
    var (k, id) := Target(w).value;
    assert SetOf(m, k) - {id} == SetOf(m, k);
    WithSetSame(m, k);
  }

  lemma WithSetSame(m: Membership, k: Kind)
    ensures WithSet(m, k, SetOf(m, k)) == m
  {
  }

  /** Adding twice is adding once. */
  lemma AddIdempotent(m: Membership, w: StagedWrite)
    requires w.operation == WriteAdd
    ensures Apply(Apply(m, w), w) == Apply(m, w)
  {
    if Target(w).Some? {
      var (k, id) := Target(w).value;
      var once := Apply(m, w);
      assert SetOf(once, k) + {id} == SetOf(once, k);
      WithSetSame(once, k);
    }
  }

  /** Adding a new id and removing it again restores the sets. */
  lemma AddThenRemoveRestores(m: Membership, w: StagedWrite)
    requires w.operation == WriteAdd
    requires Target(w).Some? ==> Target(w).value.1 !in SetOf(m, Target(w).value.0)
    ensures Apply(Apply(m, w), w.(operation := WriteRemove)) == m
  {
    var rm := w.(operation := WriteRemove);
    assert Target(rm) == Target(w);
    if Target(w).Some? {
      var (k, id) := Target(w).value;
      assert SetOf(m, k) + {id} - {id} == SetOf(m, k);
      var back := Apply(Apply(m, w), rm);
      assert SetOf(back, k) == SetOf(m, k);
      forall k' ensures SetOf(back, k') == SetOf(m, k') {
      }
      MembershipExt(back, m);
    }
  }

  lemma MembershipExt(a: Membership, b: Membership)
    requires forall k :: SetOf(a, k) == SetOf(b, k)
    ensures a == b
  {
    assert SetOf(a, Actors) == SetOf(b, Actors);
    assert SetOf(a, Geoms) == SetOf(b, Geoms);
    assert SetOf(a, Lights) == SetOf(b, Lights);
    assert SetOf(a, ParticleSystems) == SetOf(b, ParticleSystems);
  }

  /** A queue of writes applied in arrival order. */
  function ApplyAll(m: Membership, ws: seq<StagedWrite>): Membership
    decreases |ws|
  {
    if ws == [] then m else ApplyAll(Apply(m, ws[0]), ws[1..])
  }

  /** A stage node that can be drawn, by identity. */
  type NodeId = nat

  /** What the query needs to know about the stage and the camera: the type
      of each light, the frustum tests of lights and nodes, each actor's
      subactors and each particle system's node. */
  datatype StageView = StageView(
    lightType: LightId -> LightType,
    lightInFrustum: LightId -> bool,
    subactors: nat -> seq<NodeId>,
    particleSystemNode: nat -> NodeId,
    nodeInFrustum: NodeId -> bool)

  /** A light is reported when it is directional or its box meets the frustum. */
  predicate LightVisible(v: StageView, lid: LightId)
  {
    v.lightType(lid) == Directional || v.lightInFrustum(lid)
  }

  function VisibleLights(v: StageView, ids: seq<LightId>): (r: seq<LightId>)
    ensures forall x :: x in r <==> x in ids && LightVisible(v, x)
    ensures |r| <= |ids|
  {
    if ids == [] then []
    else
      var rest := VisibleLights(v, ids[..|ids| - 1]);
      var x := ids[|ids| - 1];
      if LightVisible(v, x) then rest + [x] else rest
  }

  function VisibleNodes(v: StageView, nodes: seq<NodeId>): (r: seq<NodeId>)
    ensures forall x :: x in r <==> x in nodes && v.nodeInFrustum(x)
    ensures |r| <= |nodes|
  {
    if nodes == [] then []
    else
      var rest := VisibleNodes(v, nodes[..|nodes| - 1]);
      var x := nodes[|nodes| - 1];
      if v.nodeInFrustum(x) then rest + [x] else rest
  }

  lemma VisibleNodesAppend(v: StageView, a: seq<NodeId>, b: seq<NodeId>)
    ensures VisibleNodes(v, a + b) == VisibleNodes(v, a) + VisibleNodes(v, b)
    decreases |b|
  {
    if b == [] {
      assert a + b == a;
    } else {
      var n := |b| - 1;
      assert (a + b)[..|a + b| - 1] == a + b[..n];
      VisibleNodesAppend(v, a, b[..n]);
    }
  }

  /** The visible subactors of the given actors, actor by actor. */
  function VisibleSubactors(v: StageView, actors: seq<nat>): seq<NodeId>
  {
    if actors == [] then []
    else VisibleSubactors(v, actors[..|actors| - 1]) + VisibleNodes(v, v.subactors(actors[|actors| - 1]))
  }

  function ParticleNodes(v: StageView, ps: seq<nat>): (r: seq<NodeId>)
    ensures |r| == |ps| && forall i :: 0 <= i < |ps| ==> r[i] == v.particleSystemNode(ps[i])
  {
    if ps == [] then [] else ParticleNodes(v, ps[..|ps| - 1]) + [v.particleSystemNode(ps[|ps| - 1])]
  }

  /** What lights_and_geometry_visible_from appends, lights first then geometry. */
  function VisibleFrom(m: Membership, v: StageView): (seq<LightId>, seq<NodeId>)
  {
    (VisibleLights(v, Ascending(m.lights)),
     VisibleSubactors(v, Ascending(m.actors)) + VisibleNodes(v, ParticleNodes(v, Ascending(m.particleSystems))))
  }

  /** Geoms are tracked but never reported by the null partitioner. */
  lemma GeomsNeverReported(m: Membership, v: StageView, g: set<nat>)
    ensures VisibleFrom(m.(geoms := g), v) == VisibleFrom(m, v)
  {
  }

  class NullPartitioner {
    var particleSystems: set<nat>
    var actors: set<nat>
    var geoms: set<nat>
    var lights: set<nat>
    /** Writes waiting for the next render (the queue the Partitioner base keeps). */
    var staged: seq<StagedWrite>

    constructor ()
      ensures State() == Membership({}, {}, {}, {}) && staged == []
    {
      particleSystems, actors, geoms, lights := {}, {}, {}, {};
      staged := [];
    }

    /** Queues a write for the next `ApplyWrites`. */
    method StageWrite(w: StagedWrite)
      modifies this`staged
      ensures staged == old(staged) + [w]
    {
      staged := staged + [w];
    }

    function State(): Membership
      reads this
    {
      Membership(particleSystems, actors, geoms, lights)
    }

    method ApplyStagedWrite(w: StagedWrite)
      modifies this
      ensures State() == Apply(old(State()), w)
      ensures staged == old(staged)
    {
      if w.operation == WriteAdd {
        if w.actorId != 0 {
          actors := actors + {w.actorId};
        } else if w.geomId != 0 {
          geoms := geoms + {w.geomId};
        } else if w.lightId != 0 {
          lights := lights + {w.lightId};
        } else if w.particleSystemId != 0 {
          particleSystems := particleSystems + {w.particleSystemId};
        }
      } else if w.operation == WriteRemove {
        if w.actorId != 0 {
          actors := actors - {w.actorId};
        } else if w.geomId != 0 {
          geoms := geoms - {w.geomId};
        } else if w.lightId != 0 {
          lights := lights - {w.lightId};
        } else if w.particleSystemId != 0 {
          particleSystems := particleSystems - {w.particleSystemId};
        }
      }
    }

    /** _apply_writes: drains the queue, oldest write first. */
    method ApplyWrites()
      modifies this
      ensures State() == ApplyAll(old(State()), old(staged))
      ensures staged == []
    {
      var queue := staged;
      var i := 0;
      while i < |queue|
        invariant 0 <= i <= |queue|
        invariant ApplyAll(State(), queue[i..]) == ApplyAll(old(State()), queue)
      {
        assert queue[i..][1..] == queue[i + 1..];
        ApplyStagedWrite(queue[i]);
        i := i + 1;
      }
      staged := [];
    }

    /** lights_and_geometry_visible_from: appends to the caller's vectors. */
    method LightsAndGeometryVisibleFrom(v: StageView, lightsIn: seq<LightId>, geomIn: seq<NodeId>)
      returns (lightsOut: seq<LightId>, geomOut: seq<NodeId>)
      ensures lightsOut == lightsIn + VisibleFrom(State(), v).0
      ensures geomOut == geomIn + VisibleFrom(State(), v).1
    {
      var ls, acts, ps := Ascending(lights), Ascending(actors), Ascending(particleSystems);
      lightsOut := AppendVisibleLights(v, ls, lightsIn);
      var withActors := AppendVisibleSubactors(v, acts, geomIn);
      geomOut := AppendVisibleParticleSystems(v, ps, withActors);
      ghost var q := VisibleFrom(State(), v);
      assert q.0 == VisibleLights(v, ls);
      assert q.1 == VisibleSubactors(v, acts) + VisibleNodes(v, ParticleNodes(v, ps));
      AppendAssociative(geomIn, VisibleSubactors(v, acts), VisibleNodes(v, ParticleNodes(v, ps)));
    }
  }

  /** The light loop: each tracked light that passes the test is appended. */
  method AppendVisibleLights(v: StageView, ls: seq<LightId>, lightsIn: seq<LightId>)
    returns (lightsOut: seq<LightId>)
    ensures lightsOut == lightsIn + VisibleLights(v, ls)
  {
    lightsOut := lightsIn;
    var i := 0;
    while i < |ls|
      invariant 0 <= i <= |ls|
      invariant lightsOut == lightsIn + VisibleLights(v, ls[..i])
    {
      assert ls[..i + 1][..i] == ls[..i];
      var lid := ls[i];
      if v.lightType(lid) == Directional || v.lightInFrustum(lid) {
        lightsOut := lightsOut + [lid];
      }
      i := i + 1;
    }
    assert ls[..|ls|] == ls;
  }

  /** Appends each of `nodes` whose box meets the frustum. */
  method AppendVisibleNodes(v: StageView, nodes: seq<NodeId>, geomIn: seq<NodeId>)
    returns (geomOut: seq<NodeId>)
    ensures geomOut == geomIn + VisibleNodes(v, nodes)
  {
    geomOut := geomIn;
    var j := 0;
    while j < |nodes|
      invariant 0 <= j <= |nodes|
      invariant geomOut == geomIn + VisibleNodes(v, nodes[..j])
    {
      assert nodes[..j + 1][..j] == nodes[..j];
      if v.nodeInFrustum(nodes[j]) {
        geomOut := geomOut + [nodes[j]];
      }
      j := j + 1;
    }
    assert nodes[..j] == nodes;
  }

  /** The actor loop: every subactor of every actor, in turn, that meets the frustum. */
  method AppendVisibleSubactors(v: StageView, acts: seq<nat>, geomIn: seq<NodeId>)
    returns (geomOut: seq<NodeId>)
    ensures geomOut == geomIn + VisibleSubactors(v, acts)
  {
    geomOut := geomIn;
    var a := 0;
    while a < |acts|
      invariant 0 <= a <= |acts|
      invariant geomOut == geomIn + VisibleSubactors(v, acts[..a])
    {
      assert acts[..a + 1][..a] == acts[..a];
      ghost var before := geomOut;
      geomOut := AppendVisibleNodes(v, v.subactors(acts[a]), geomOut);
      assert VisibleSubactors(v, acts[..a + 1])
        == VisibleSubactors(v, acts[..a]) + VisibleNodes(v, v.subactors(acts[a]));
      a := a + 1;
    }
    assert acts[..|acts|] == acts;
  }

  /** One more particle system adds its node when the node is in the frustum. */
  lemma ParticleStep(v: StageView, ps: seq<nat>, p: nat)
    requires p < |ps|
    ensures var node := v.particleSystemNode(ps[p]);
      VisibleNodes(v, ParticleNodes(v, ps[..p + 1])) ==
        VisibleNodes(v, ParticleNodes(v, ps[..p])) + if v.nodeInFrustum(node) then [node] else []
  {
    assert ps[..p + 1][..p] == ps[..p];
    var node := v.particleSystemNode(ps[p]);
    assert ParticleNodes(v, ps[..p + 1]) == ParticleNodes(v, ps[..p]) + [node];
    VisibleNodesAppend(v, ParticleNodes(v, ps[..p]), [node]);
    assert VisibleNodes(v, [node]) == if v.nodeInFrustum(node) then [node] else [] by {
      assert [node][..0] == [];
    }
  }

  /** The particle-system loop. */
  method AppendVisibleParticleSystems(v: StageView, ps: seq<nat>, geomIn: seq<NodeId>)
    returns (geomOut: seq<NodeId>)
    ensures geomOut == geomIn + VisibleNodes(v, ParticleNodes(v, ps))
  {
    geomOut := geomIn;
    var p := 0;
    while p < |ps|
      invariant 0 <= p <= |ps|
      invariant geomOut == geomIn + VisibleNodes(v, ParticleNodes(v, ps[..p]))
    {
      ParticleStep(v, ps, p);
      var node := v.particleSystemNode(ps[p]);
      if v.nodeInFrustum(node) {
        AppendAssociative(geomIn, VisibleNodes(v, ParticleNodes(v, ps[..p])), [node]);
        geomOut := geomOut + [node];
      }
      p := p + 1;
    }
    assert ps[..|ps|] == ps;
  }
}
