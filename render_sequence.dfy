/** The render sequence: the priority-ordered list of pipelines, their
    activation and the per-frame run that clears targets, gathers what is
    visible and stamps renderables with the frame id and their lights. */
module RenderSequence {
  import opened Wrappers
  import opened Light
  import opened StableSort
  import opened LightAssignment
  import R = Renderable
  import NP = NullPartitioner

  type PipelineId = nat

  /** What a pipeline holds: its priority, whether it is active, and the
      stage, camera and render target ids it draws (0 is the null id) with
      the viewport clear flags. */
  datatype Pipeline = Pipeline(priority: int, isActive: bool, stage: nat, camera: nat, target: nat, clearFlags: nat)

  /** The priority of each pipeline, the key the list is sorted by. */
  function Priorities(table: map<PipelineId, Pipeline>): (key: map<PipelineId, int>)
    ensures forall id :: id in table ==> id in key && key[id] == table[id].priority
  {
    map id | id in table :: table[id].priority
  }

  /** Each id occurs at most once. */
  ghost predicate NoDuplicates(s: seq<PipelineId>)
  {
    forall id :: multiset(s)[id] <= 1
  }

  /** The list without `id`, the others in their order (the remove_if of
      delete_pipeline). */
  function Without(s: seq<PipelineId>, id: PipelineId): (r: seq<PipelineId>)
    ensures |r| <= |s|
  {
    if s == [] then []
    else Without(s[..|s| - 1], id) + (if s[|s| - 1] == id then [] else [s[|s| - 1]])
  }

  /** Removal drops every occurrence of `id` and keeps every other entry as often as it was. */
  lemma {:induction false} WithoutCounts(s: seq<PipelineId>, id: PipelineId)
    ensures forall x :: multiset(Without(s, id))[x] == if x == id then 0 else multiset(s)[x]
  {
    if s != [] {
      var n := |s| - 1;
      WithoutCounts(s[..n], id);
      assert s == s[..n] + [s[n]];
    }
  }

  /** Removal keeps the list sorted: the survivors keep their relative order. */
  lemma {:induction false} WithoutKeepsOrder(s: seq<PipelineId>, id: PipelineId, key: map<PipelineId, int>)
    requires SortedBy(s, key)
    ensures SortedBy(Without(s, id), key)
  {
    if s != [] {
      var n := |s| - 1;
      var front := s[..n];
      assert SortedBy(front, key) by {
        forall i, j | 0 <= i < j < |front| ensures KeyOf(key, front[i]) <= KeyOf(key, front[j]) {
          assert front[i] == s[i] && front[j] == s[j];
        }
      }
      WithoutKeepsOrder(front, id, key);
      var r := Without(s, id);
      var rf := Without(front, id);
      forall i, j | 0 <= i < j < |r| ensures KeyOf(key, r[i]) <= KeyOf(key, r[j]) {
        if j == |rf| {
          WithoutCounts(front, id);
          assert r[i] in multiset(rf);
          assert r[i] in front;
          var k :| 0 <= k < n && front[k] == r[i];
          assert s[k] == r[i];
        } else {
          assert r[i] == rf[i] && r[j] == rf[j];
        }
      }
    }
  }

  /** The ids of the active pipelines, in list order. */
  function ActiveIds(table: map<PipelineId, Pipeline>, s: seq<PipelineId>): (r: seq<PipelineId>)
    ensures |r| <= |s|
  {
    if s == [] then []
    else
      var last := s[|s| - 1];
      ActiveIds(table, s[..|s| - 1]) + (if last in table && table[last].isActive then [last] else [])
  }

  /** The reported ids are exactly the listed ids of active pipelines. */
  lemma {:induction false} ActiveIdsAreActive(table: map<PipelineId, Pipeline>, s: seq<PipelineId>)
    ensures forall id :: id in ActiveIds(table, s) <==> id in s && id in table && table[id].isActive
  {
    if s != [] {
      var front := s[..|s| - 1];
      ActiveIdsAreActive(table, front);
      assert s == front + [s[|s| - 1]];
    }
  }

  /** One more listed id adds it to the active ids exactly when it is active. */
  lemma ActiveIdsStep(table: map<PipelineId, Pipeline>, s: seq<PipelineId>, i: nat)
    requires i < |s|
    ensures ActiveIds(table, s[..i + 1]) ==
      ActiveIds(table, s[..i]) + if s[i] in table && table[s[i]].isActive then [s[i]] else []
    ensures (ActiveIds(table, s[..i + 1]) != []) ==
      (ActiveIds(table, s[..i]) != [] || (s[i] in table && table[s[i]].isActive))
  {
    assert s[..i + 1][..i] == s[..i];
  }

  datatype Target = Window | TextureTarget(id: nat)

  /** The visible effects of a pipeline run, in order. */
  datatype Event =
    | ClearTarget(target: Target, flags: nat)
    | ViewportClear(pipeline: nat, flags: nat)
    | ViewportApply(pipeline: nat)
    | PipelineStarted(pipeline: nat)
    | StagePreRender(stage: nat, camera: nat)
    | Traverse(stage: nat, frameId: nat)
    | StagePostRender(stage: nat, camera: nat)
    | PipelineFinished(pipeline: nat)

  /** How many target clears a trace holds. */
  function Clears(t: seq<Event>): (n: nat)
    ensures n <= |t|
  {
    if t == [] then 0
    else Clears(t[..|t| - 1]) + (if t[|t| - 1].ClearTarget? then 1 else 0)
  }

  lemma {:induction false} ClearsAppend(a: seq<Event>, b: seq<Event>)
    ensures Clears(a + b) == Clears(a) + Clears(b)
    decreases |b|
  {
    if b == [] {
      assert a + b == a;
    } else {
      var n := |b| - 1;
      assert (a + b)[..|a + b| - 1] == a + b[..n];
      ClearsAppend(a, b[..n]);
    }
  }

  lemma {:induction false} NoClears(t: seq<Event>)
    requires forall i :: 0 <= i < |t| ==> !t[i].ClearTarget?
    ensures Clears(t) == 0
  {
    if t != [] {
      NoClears(t[..|t| - 1]);
    }
  }

  /** The events of an active pipeline's run up to the stage's pre-render
      signal: the window clear when the window was not yet cleared in this
      frame and asks for one, then the viewport clear (or apply). */
  function PreRenderEvents(pid: PipelineId, p: Pipeline, alreadyCleared: bool, windowFlags: nat): (t: seq<Event>)
    ensures Clears(t) == if !alreadyCleared && windowFlags != 0 then 1 else 0
  {
    var first := if !alreadyCleared && windowFlags != 0 then [ClearTarget(Window, windowFlags)] else [];
    var view := if p.clearFlags != 0 then ViewportClear(pid, p.clearFlags) else ViewportApply(pid);
    var rest := [view, PipelineStarted(pid), StagePreRender(p.stage, p.camera)];
    NoClears(rest);
    ClearsAppend(first, rest);
    first + rest
  }

  /** The events after the stage is drawn. */
  function PostRenderEvents(pid: PipelineId, p: Pipeline, frameId: nat): (t: seq<Event>)
    ensures Clears(t) == 0
  {
    var t := [Traverse(p.stage, frameId), StagePostRender(p.stage, p.camera), PipelineFinished(pid)];
    NoClears(t);
    t
  }

  /** The events of one run of an active pipeline. */
  function RunEvents(pid: PipelineId, p: Pipeline, frameId: nat, alreadyCleared: bool, windowFlags: nat): (t: seq<Event>)
    ensures Clears(t) == if !alreadyCleared && windowFlags != 0 then 1 else 0
  {
    var pre := PreRenderEvents(pid, p, alreadyCleared, windowFlags);
    var post := PostRenderEvents(pid, p, frameId);
    ClearsAppend(pre, post);
    pre + post
  }

  /** The run events are the pre-render part followed by the post-render part. */
  lemma RunEventsSplit(pid: PipelineId, p: Pipeline, frameId: nat, alreadyCleared: bool, windowFlags: nat,
                       before: seq<Event>)
    ensures before + PreRenderEvents(pid, p, alreadyCleared, windowFlags) + PostRenderEvents(pid, p, frameId)
         == before + RunEvents(pid, p, frameId, alreadyCleared, windowFlags)
  {
    var pre := PreRenderEvents(pid, p, alreadyCleared, windowFlags);
    var post := PostRenderEvents(pid, p, frameId);
    assert RunEvents(pid, p, frameId, alreadyCleared, windowFlags) == pre + post;
    assert before + pre + post == before + (pre + post);
  }

  /** What run_pipeline reads of one stage: its partitioner, the frustum
      tests of each camera, what the partitioner reports to a camera for a
      given membership, its lights, and for each node its visibility, its
      geometry and the renderables it yields to a camera. */
  datatype StageScene = StageScene(
    partitioner: NP.NullPartitioner,
    view: nat -> NP.StageView,
    query: (NP.Membership, nat) -> (seq<LightId>, seq<NP.NodeId>),
    lightOf: LightId -> LightView,
    nodeVisible: NP.NodeId -> bool,
    geometry: NP.NodeId -> NodeGeometry,
    renderables: (NP.NodeId, nat) -> seq<R.Renderable>)

  /** The stage's query is lights_and_geometry_visible_from of its null
      partitioner, for every membership and camera. */
  ghost predicate Queries(s: StageScene)
  {
    forall m, c {:trigger NP.VisibleFrom(m, s.view(c))} :: s.query(m, c) == NP.VisibleFrom(m, s.view(c))
  }

  function LookUpLights(s: StageScene, ids: seq<LightId>): (r: seq<LightView>)
    ensures |r| == |ids| && forall i :: 0 <= i < |ids| ==> r[i] == s.lightOf(ids[i])
  {
    if ids == [] then [] else LookUpLights(s, ids[..|ids| - 1]) + [s.lightOf(ids[|ids| - 1])]
  }

  /** A renderable that gets stamped: one with indices. */
  predicate Drawn(r: R.Renderable)
  {
    r.indexElementCount != 0
  }

  /** The last visible node among `nodes` that yields `r` with indices: the
      node whose light list `r` ends up with. */
  function LastOwner(s: StageScene, camera: nat, nodes: seq<NP.NodeId>, r: R.Renderable): (o: Option<NP.NodeId>)
    ensures o.Some? ==> o.value in nodes && s.nodeVisible(o.value) && r in s.renderables(o.value, camera) && Drawn(r)
  {
    if nodes == [] then None
    else
      var n := nodes[|nodes| - 1];
      if s.nodeVisible(n) && r in s.renderables(n, camera) && Drawn(r) then Some(n)
      else LastOwner(s, camera, nodes[..|nodes| - 1], r)
  }

  /** How many renderables the stamping loop counts. */
  function DrawnCount(rs: seq<R.Renderable>): (n: nat)
    ensures n <= |rs|
  {
    if rs == [] then 0 else DrawnCount(rs[..|rs| - 1]) + (if Drawn(rs[|rs| - 1]) then 1 else 0)
  }

  function StampCount(s: StageScene, camera: nat, nodes: seq<NP.NodeId>): nat
  {
    if nodes == [] then 0
    else
      var n := nodes[|nodes| - 1];
      StampCount(s, camera, nodes[..|nodes| - 1])
        + (if s.nodeVisible(n) then DrawnCount(s.renderables(n, camera)) else 0)
  }

  /** Every renderable any node of the scene can yield is in `rs`. */
  ghost predicate Covers(s: StageScene, rs: set<R.Renderable>)
  {
    forall n: NP.NodeId, c: nat, r :: r in s.renderables(n, c) ==> r in rs
  }

  /** The stamp (frame id and lights) a renderable has after the loop over
      `nodes`: the frame id and the lights of its last owner, or `earlier`
      when no visible node yields it with indices. */
  function Restamp(s: StageScene, camera: nat, nodes: seq<NP.NodeId>, visible: seq<LightView>,
                   maxLights: nat, frameId: nat, r: R.Renderable, earlier: (nat, seq<LightView>))
    : (stamp: (nat, seq<LightView>))
    ensures LastOwner(s, camera, nodes, r).None? ==> stamp == earlier
    ensures LastOwner(s, camera, nodes, r).Some? ==> stamp.0 == frameId
  {
    match LastOwner(s, camera, nodes, r)
    case None => earlier
    case Some(n) => (frameId, LightsFor(s.geometry(n), visible, maxLights))
  }

  /** `r` carries the stamp the loop over `nodes` leaves on it, given the
      stamp it had before. */
  ghost predicate StampedAfter(s: StageScene, camera: nat, nodes: seq<NP.NodeId>, visible: seq<LightView>,
                               maxLights: nat, frameId: nat, r: R.Renderable,
                               oldFrame: nat, oldLights: seq<LightView>)
    reads r
  {
    (r.lastVisibleFrameId, r.lights) == Restamp(s, camera, nodes, visible, maxLights, frameId, r, (oldFrame, oldLights))
  }

  /** The stamp each renderable of `rs` carries now. */
  ghost function Stamps(rs: set<R.Renderable>): map<R.Renderable, (nat, seq<LightView>)>
    reads rs
  {
    map r | r in rs :: (r.lastVisibleFrameId, r.lights)
  }

  /** The stamping of one node's renderables: those with indices get the
      frame id and the node's lights, the rest are left alone. */
  method StampRenderables(rs: seq<R.Renderable>, lights: seq<LightView>, frameId: nat,
                          ghost touched: set<R.Renderable>)
    returns (count: nat)
    requires forall r :: r in rs ==> r in touched
    modifies touched
    ensures count == DrawnCount(rs)
    ensures forall r :: r in touched ==>
      if r in rs && Drawn(r) then r.lastVisibleFrameId == frameId && r.lights == lights
      else r.lastVisibleFrameId == old(r.lastVisibleFrameId) && r.lights == old(r.lights)
  {
    count := 0;
    var j := 0;
    while j < |rs|
      invariant 0 <= j <= |rs|
      invariant count == DrawnCount(rs[..j])
      invariant forall r :: r in touched ==>
        if r in rs[..j] && Drawn(r) then r.lastVisibleFrameId == frameId && r.lights == lights
        else r.lastVisibleFrameId == old(r.lastVisibleFrameId) && r.lights == old(r.lights)
    {
      assert rs[..j + 1][..j] == rs[..j];
      assert forall r :: r in rs[..j + 1] <==> r in rs[..j] || r == rs[j];
      var r := rs[j];
      if r.indexElementCount != 0 {
        r.UpdateLastVisibleFrameId(frameId);
        assert r.IsVisibleInFrame(frameId);
        r.SetAffectedByLights(lights);
        count := count + 1;
      }
      j := j + 1;
    }
    assert rs[..j] == rs;
  }

  lemma LastOwnerStep(s: StageScene, camera: nat, nodes: seq<NP.NodeId>, i: nat, r: R.Renderable)
    requires i < |nodes|
    ensures LastOwner(s, camera, nodes[..i + 1], r) ==
      if s.nodeVisible(nodes[i]) && r in s.renderables(nodes[i], camera) && Drawn(r)
      then Some(nodes[i]) else LastOwner(s, camera, nodes[..i], r)
  {
    assert nodes[..i + 1][..i] == nodes[..i];
  }

  /** The stamping loop of run_pipeline over the visible nodes. */
  method StampNodes(s: StageScene, camera: nat, nodes: seq<NP.NodeId>, visible: seq<LightView>,
                    maxLights: nat, frameId: nat, ghost touched: set<R.Renderable>)
    returns (count: nat)
    requires Covers(s, touched)
    modifies touched
    ensures count == StampCount(s, camera, nodes)
    ensures forall r :: r in touched ==>
      StampedAfter(s, camera, nodes, visible, maxLights, frameId, r,
                   old(r.lastVisibleFrameId), old(r.lights))
  {
    count := 0;
    var i := 0;
    while i < |nodes|
      invariant 0 <= i <= |nodes|
      invariant count == StampCount(s, camera, nodes[..i])
      invariant forall r :: r in touched ==>
        StampedAfter(s, camera, nodes[..i], visible, maxLights, frameId, r,
                     old(r.lastVisibleFrameId), old(r.lights))
    {
      assert nodes[..i + 1][..i] == nodes[..i];
      var node := nodes[i];
      if s.nodeVisible(node) {
        var lights := LightsFor(s.geometry(node), visible, maxLights);
        var rs := s.renderables(node, camera);
        var n := StampRenderables(rs, lights, frameId, touched);
        count := count + n;
      }
      forall r | r in touched
        ensures LastOwner(s, camera, nodes[..i + 1], r) ==
          if s.nodeVisible(nodes[i]) && r in s.renderables(nodes[i], camera) && Drawn(r)
          then Some(nodes[i]) else LastOwner(s, camera, nodes[..i], r)
      {
        LastOwnerStep(s, camera, nodes, i, r);
      }
      i := i + 1;
    }
    assert nodes[..i] == nodes;
  }


  /** The render count of a stage; a stage never counted has 0. */
  function CountOf(counts: map<nat, int>, stage: nat): int
  {
    if stage in counts then counts[stage] else 0
  }

  /** The counts with one stage's count moved by `delta`, the others as they were. */
  function Bump(counts: map<nat, int>, stage: nat, delta: int): (r: map<nat, int>)
    ensures CountOf(r, stage) == CountOf(counts, stage) + delta
    ensures forall s :: s != stage ==> CountOf(r, s) == CountOf(counts, s)
  {
    counts[stage := CountOf(counts, stage) + delta]
  }

  /** The shape the sequence keeps between calls: the list holds pipelines
      of the manager, each once, sorted by priority; every id handed out is
      below the next one. */
  ghost predicate Ordered(ordered: seq<PipelineId>, pipelines: map<PipelineId, Pipeline>, nextId: nat)
  {
    && NoDuplicates(ordered)
    && (forall id :: id in ordered ==> id in pipelines)
    && (forall id :: id in pipelines ==> id < nextId)
    && SortedBy(ordered, Priorities(pipelines))
  }

  /** Re-sorting a list of known ids, each once, restores the shape. */
  lemma Resorted(s: seq<PipelineId>, m: map<PipelineId, Pipeline>, nextId: nat)
    requires NoDuplicates(s) && (forall id :: id in s ==> id in m) && (forall id :: id in m ==> id < nextId)
    ensures Ordered(Sort(s, Priorities(m)), m, nextId)
    ensures multiset(Sort(s, Priorities(m))) == multiset(s)
  {
    var r := Sort(s, Priorities(m));
    SortCorrect(s, Priorities(m));
    forall x | x in r ensures x in m {
      assert multiset(r)[x] > 0;
      assert x in s;
    }
  }

  /** A new priority for one pipeline: re-sorting keeps the shape, and
      leaves the list as it was when the priority is the same or the
      pipeline is not listed. */
  lemma Reprioritized(s: seq<PipelineId>, m: map<PipelineId, Pipeline>, m': map<PipelineId, Pipeline>,
                      nextId: nat, id: PipelineId)
    requires Ordered(s, m, nextId) && id in m && id in m'
    requires m' == m[id := m[id].(priority := m'[id].priority)]
    ensures Ordered(Sort(s, Priorities(m')), m', nextId)
    ensures multiset(Sort(s, Priorities(m'))) == multiset(s)
    ensures id !in s ==> Sort(s, Priorities(m')) == s
    ensures m'[id].priority == m[id].priority ==> Sort(s, Priorities(m')) == s
  {
    assert m'.Keys == m.Keys;
    Resorted(s, m', nextId);
    if id !in s {
      SortUnaffected(s, Priorities(m), Priorities(m'));
    }
    if m'[id].priority == m[id].priority {
      assert m' == m;
      SortOfSortedIsIdentity(s, Priorities(m));
    }
  }

  /** Dropping a pipeline from the list and the manager keeps the shape. */
  lemma Removed(s: seq<PipelineId>, m: map<PipelineId, Pipeline>, nextId: nat, id: PipelineId)
    requires Ordered(s, m, nextId) && (forall x :: x in m ==> x in s)
    ensures Ordered(Without(s, id), m - {id}, nextId)
    ensures forall x :: x in m - {id} ==> x in Without(s, id)
    ensures forall x :: multiset(Without(s, id))[x] == if x == id then 0 else multiset(s)[x]
  {
    var key := Priorities(m);
    var r := Without(s, id);
    WithoutCounts(s, id);
    WithoutKeepsOrder(s, id, key);
    ListedAfterRemove(s, m.Keys, id);
    assert forall x :: x in r ==> KeyOf(key, x) == KeyOf(Priorities(m - {id}), x);
    SortedByAgree(r, key, Priorities(m - {id}));
  }

  /** A pipeline made under the next id, not yet listed, keeps the shape. */
  lemma Created(s: seq<PipelineId>, m: map<PipelineId, Pipeline>, nextId: nat, p: Pipeline)
    requires Ordered(s, m, nextId)
    ensures nextId !in s && nextId !in m
    ensures Ordered(s, m[nextId := p], nextId + 1)
  {
    SortedByAgree(s, Priorities(m), Priorities(m[nextId := p]));
  }

  /** Activation does not touch the sort key. */
  lemma PrioritiesIgnoreActivity(m: map<PipelineId, Pipeline>, id: PipelineId, active: bool)
    requires id in m
    ensures Priorities(m[id := m[id].(isActive := active)]) == Priorities(m)
  {
    var m' := m[id := m[id].(isActive := active)];
    assert m'.Keys == m.Keys;
  }

  lemma ListedAfterAdd(before: seq<PipelineId>, after: seq<PipelineId>, keys: set<PipelineId>,
                       keys': set<PipelineId>, id: PipelineId)
    requires forall x :: x in keys ==> x in before
    requires multiset(after) == multiset(before) + multiset{id}
    requires keys' == keys + {id}
    ensures forall x :: x in keys' ==> x in after
  {
    forall x | x in keys' ensures x in after {
      if x != id {
        assert multiset(before)[x] > 0;
      }
      assert multiset(after)[x] > 0;
    }
  }

  lemma ListedAfterRemove(before: seq<PipelineId>, keys: set<PipelineId>, id: PipelineId)
    requires forall x :: x in keys <==> x in before
    ensures forall x :: x in keys - {id} <==> x in Without(before, id)
  {
    WithoutCounts(before, id);
    forall x ensures x in keys - {id} <==> x in Without(before, id) {
      assert x in before <==> multiset(before)[x] > 0;
      assert x in Without(before, id) <==> multiset(Without(before, id))[x] > 0;
    }
  }

  lemma RemoveAfterUpdate<K, V>(m: map<K, V>, k: K, v: V)
    ensures m[k := v] - {k} == m - {k}
  {
  }

  lemma UpdateTwice<K, V>(m: map<K, V>, k: K, v: V, w: V)
    ensures m[k := v][k := w] == m[k := w]
  {
  }

  /** Sortedness depends only on the keys of the listed ids. */
  lemma SortedByAgree(s: seq<PipelineId>, key1: map<PipelineId, int>, key2: map<PipelineId, int>)
    requires SortedBy(s, key1)
    requires forall x :: x in s ==> KeyOf(key1, x) == KeyOf(key2, x)
    ensures SortedBy(s, key2)
  {
    forall i, j | 0 <= i < j < |s| ensures KeyOf(key2, s[i]) <= KeyOf(key2, s[j]) {
      assert s[i] in s && s[j] in s;
    }
  }

  /** A sorted list stays as it is when keys change only for ids it does not hold. */
  lemma SortUnaffected(s: seq<PipelineId>, key1: map<PipelineId, int>, key2: map<PipelineId, int>)
    requires SortedBy(s, key1)
    requires forall x :: x in s ==> KeyOf(key1, x) == KeyOf(key2, x)
    ensures Sort(s, key2) == s
  {
    SortDependsOnListedKeys(s, key1, key2);
    SortOfSortedIsIdentity(s, key1);
  }

  /** The stage part of run_pipeline: apply the pending writes, gather
      what the camera sees, and stamp the visible renderables. */
  method RenderStage(scene: StageScene, camera: nat, maxLights: nat, frameId: nat, ghost touched: set<R.Renderable>)
    returns (count: nat)
    requires Covers(scene, touched) && Queries(scene)
    modifies scene.partitioner, touched
    ensures scene.partitioner.State() == NP.ApplyAll(old(scene.partitioner.State()), old(scene.partitioner.staged))
    ensures scene.partitioner.staged == []
    ensures var seen := scene.query(scene.partitioner.State(), camera);
      && count == StampCount(scene, camera, seen.1)
      && forall r :: r in touched ==>
           StampedAfter(scene, camera, seen.1, LookUpLights(scene, seen.0), maxLights, frameId, r,
                        old(r.lastVisibleFrameId), old(r.lights))
  {
    scene.partitioner.ApplyWrites();
    var lightIds, nodes := scene.partitioner.LightsAndGeometryVisibleFrom(scene.view(camera), [], []);
    ghost var seen := NP.VisibleFrom(scene.partitioner.State(), scene.view(camera));
    assert lightIds == seen.0 && nodes == seen.1;
    assert seen == scene.query(scene.partitioner.State(), camera);
    var lights := LookUpLights(scene, lightIds);
    count := StampNodes(scene, camera, nodes, lights, maxLights, frameId, touched);
  }

  /** Whether one of the first `n` listed pipelines is active. */
  function AnyActive(table: map<PipelineId, Pipeline>, s: seq<PipelineId>, n: nat): bool
    requires n <= |s|
  {
    if n == 0 then false
    else AnyActive(table, s, n - 1) || (s[n - 1] in table && table[s[n - 1]].isActive)
  }

  /** Some listed pipeline is active exactly when the active ids are not empty. */
  lemma {:induction false} AnyActiveIds(table: map<PipelineId, Pipeline>, s: seq<PipelineId>, n: nat)
    requires n <= |s|
    ensures AnyActive(table, s, n) <==> ActiveIds(table, s[..n]) != []
  {
    if n != 0 {
      AnyActiveIds(table, s, n - 1);
      assert s[..n][..n - 1] == s[..n - 1];
    }
  }

  /** The events run leaves for the listed pipelines `s`: each active one's
      run events in list order, with the frame id of its turn (the id after
      `frame0` for the first listed pipeline, whether active or not), and the
      window counted as already cleared once an earlier one ran. */
  function RunTrace(table: map<PipelineId, Pipeline>, s: seq<PipelineId>, n: nat, frame0: nat, windowFlags: nat)
    : seq<Event>
    requires n <= |s|
  {
    if n == 0 then []
    else
      var last := s[n - 1];
      var step := if last in table && table[last].isActive
                  then RunEvents(last, table[last], frame0 + n, AnyActive(table, s, n - 1), windowFlags)
                  else [];
      RunTrace(table, s, n - 1, frame0, windowFlags) + step
  }

  /** The window is cleared at most once in a frame: exactly when some
      listed pipeline is active and the window has clear flags. */
  lemma {:induction false} RunTraceClears(table: map<PipelineId, Pipeline>, s: seq<PipelineId>, n: nat, frame0: nat,
                                          windowFlags: nat)
    requires n <= |s|
    ensures Clears(RunTrace(table, s, n, frame0, windowFlags)) ==
      if AnyActive(table, s, n) && windowFlags != 0 then 1 else 0
  {
    if n != 0 {
      var last := s[n - 1];
      RunTraceClears(table, s, n - 1, frame0, windowFlags);
      var step := if last in table && table[last].isActive
                  then RunEvents(last, table[last], frame0 + n, AnyActive(table, s, n - 1), windowFlags)
                  else [];
      ClearsAppend(RunTrace(table, s, n - 1, frame0, windowFlags), step);
    }
  }

  /** The partitioners of the stages the active pipelines among `s` draw. */
  function ActivePartitioners(table: map<PipelineId, Pipeline>, scenes: nat -> StageScene, s: seq<PipelineId>, n: nat)
    : set<NP.NullPartitioner>
    requires n <= |s|
  {
    if n == 0 then {}
    else
      var last := s[n - 1];
      ActivePartitioners(table, scenes, s, n - 1)
        + if last in table && table[last].isActive then {scenes(table[last].stage).partitioner} else {}
  }

  /** The membership and pending writes of each partitioner at one moment. */
  type Snapshot = map<NP.NullPartitioner, (NP.Membership, seq<NP.StagedWrite>)>

  ghost function SnapshotOf(ps: set<NP.NullPartitioner>): (snap: Snapshot)
    reads ps
    ensures snap.Keys == ps
  {
    map q | q in ps :: (q.State(), q.staged)
  }

  /** The membership of `q` once its pending writes are applied (empty for
      a partitioner the snapshot does not hold; run's callers rule that out). */
  function Applied(snap: Snapshot, q: NP.NullPartitioner): NP.Membership
  {
    if q in snap then NP.ApplyAll(snap[q].0, snap[q].1) else NP.Membership({}, {}, {}, {})
  }

  /** The membership and pending writes a partitioner has once those of
      `used` are drained: its writes applied and its queue empty; any other
      as in `before`. */
  function DrainedEntry(before: Snapshot, used: set<NP.NullPartitioner>, q: NP.NullPartitioner)
    : (NP.Membership, seq<NP.StagedWrite>)
  {
    if q in used then (Applied(before, q), [])
    else if q in before then before[q]
    else (NP.Membership({}, {}, {}, {}), [])
  }

  /** Draining `q` (when its pipeline is active) and leaving the others
      alone carries each partitioner's DrainedEntry from `used` to `used`
      with `q` added. */
  lemma DrainStep(snap: Snapshot, used: set<NP.NullPartitioner>, q: NP.NullPartitioner, active: bool,
                  q': NP.NullPartitioner, before: (NP.Membership, seq<NP.StagedWrite>),
                  after: (NP.Membership, seq<NP.StagedWrite>))
    requires before == DrainedEntry(snap, used, q')
    requires after == if q' == q && active then (NP.ApplyAll(before.0, before.1), []) else before
    ensures after == DrainedEntry(snap, used + if active then {q} else {}, q')
  {
    if q' == q && active && q in used {
      assert NP.ApplyAll(Applied(snap, q), []) == Applied(snap, q);
    }
  }

  /** Every partitioner of `ps` holds its DrainedEntry. */
  ghost predicate DrainedNow(ps: set<NP.NullPartitioner>, before: Snapshot, used: set<NP.NullPartitioner>)
    reads ps
  {
    forall q :: q in ps ==> (q.State(), q.staged) == DrainedEntry(before, used, q)
  }

  /** What a pipeline's camera sees of its stage, lights then nodes, read
      from the stage's partitioner once its pending writes are applied. */
  function SeenBy(table: map<PipelineId, Pipeline>, scenes: nat -> StageScene, snap: Snapshot)
    : PipelineId -> (seq<LightId>, seq<NP.NodeId>)
  {
    id =>
      if id in table then
        var scene := scenes(table[id].stage);
        scene.query(Applied(snap, scene.partitioner), table[id].camera)
      else ([], [])
  }

  /** Applying what is pending on a partitioner gives the same membership
      whether or not an earlier pipeline of the frame drained it, so every
      pipeline sees what SeenBy says. */
  lemma SeenAfterDrain(table: map<PipelineId, Pipeline>, scenes: nat -> StageScene, snap: Snapshot,
                       used: set<NP.NullPartitioner>, id: PipelineId, state: NP.Membership,
                       vis: (seq<LightId>, seq<NP.NodeId>))
    requires id in table && scenes(table[id].stage).partitioner in snap
    requires var e := DrainedEntry(snap, used, scenes(table[id].stage).partitioner);
      state == NP.ApplyAll(e.0, e.1)
    requires vis == scenes(table[id].stage).query(state, table[id].camera)
    ensures vis == SeenBy(table, scenes, snap)(id)
  {
    var q := scenes(table[id].stage).partitioner;
    if q in used {
      assert NP.ApplyAll(Applied(snap, q), []) == Applied(snap, q);
    }
  }

  /** The stamp (frame id and lights) a renderable carries after run's loop
      over the listed pipelines `s`, where `seen` is what each pipeline's
      camera sees: the stamp of the last active pipeline whose stage shows
      it with indices, or `before`. */
  function StampAfterRun(table: map<PipelineId, Pipeline>, s: seq<PipelineId>, n: nat, scenes: nat -> StageScene,
                         seen: PipelineId -> (seq<LightId>, seq<NP.NodeId>), frame0: nat, maxLights: nat,
                         r: R.Renderable, before: (nat, seq<LightView>)): (stamp: (nat, seq<LightView>))
    requires n <= |s|
    ensures stamp == before || frame0 < stamp.0 <= frame0 + n
  {
    if n == 0 then before
    else
      var last := s[n - 1];
      var earlier := StampAfterRun(table, s, n - 1, scenes, seen, frame0, maxLights, r, before);
      if last in table && table[last].isActive then
        var p := table[last];
        var scene := scenes(p.stage);
        Restamp(scene, p.camera, seen(last).1, LookUpLights(scene, seen(last).0), maxLights, frame0 + n, r, earlier)
      else earlier
  }

  /** The window's visible-geometry statistic after run's loop over `s`:
      the count of the last active pipeline, or `before`. */
  function GeometryAfterRun(table: map<PipelineId, Pipeline>, s: seq<PipelineId>, n: nat, scenes: nat -> StageScene,
                            seen: PipelineId -> (seq<LightId>, seq<NP.NodeId>), before: nat): (count: nat)
    requires n <= |s|
    ensures !AnyActive(table, s, n) ==> count == before
  {
    if n == 0 then before
    else
      var last := s[n - 1];
      if last in table && table[last].isActive then
        StampCount(scenes(table[last].stage), table[last].camera, seen(last).1)
      else GeometryAfterRun(table, s, n - 1, scenes, seen, before)
  }

  /** run_pipeline on the `i`-th listed pipeline extends run's trace by
      its run events exactly when it is active. */
  lemma TraceAfterStep(table: map<PipelineId, Pipeline>, s: seq<PipelineId>, i: nat, frame0: nat, windowFlags: nat,
                       trace0: seq<Event>, rendered: bool, trace: seq<Event>, trace': seq<Event>, frameId: nat)
    requires i < |s| && frameId == frame0 + i + 1 && rendered == AnyActive(table, s, i)
    requires trace == trace0 + RunTrace(table, s, i, frame0, windowFlags)
    requires trace' == trace +
      if s[i] in table && table[s[i]].isActive then RunEvents(s[i], table[s[i]], frameId, rendered, windowFlags) else []
    ensures trace' == trace0 + RunTrace(table, s, i + 1, frame0, windowFlags)
  {
    var step :=
      if s[i] in table && table[s[i]].isActive then RunEvents(s[i], table[s[i]], frameId, rendered, windowFlags) else [];
    AppendAfter(trace0, RunTrace(table, s, i, frame0, windowFlags), step, trace, trace');
  }

  lemma AppendAfter<T>(start: seq<T>, front: seq<T>, step: seq<T>, before: seq<T>, after: seq<T>)
    requires before == start + front && after == before + step
    ensures after == start + (front + step)
  {
  }

  /** run_pipeline on the `i`-th listed pipeline, seeing `vis`, moves a
      renderable's stamp one step along StampAfterRun when `vis` is what
      SeenBy says. */
  lemma StampAfterStep(table: map<PipelineId, Pipeline>, s: seq<PipelineId>, i: nat, scenes: nat -> StageScene,
                       seen: PipelineId -> (seq<LightId>, seq<NP.NodeId>), frame0: nat, maxLights: nat,
                       r: R.Renderable, before: (nat, seq<LightView>), earlier: (nat, seq<LightView>),
                       now: (nat, seq<LightView>), vis: (seq<LightId>, seq<NP.NodeId>), frameId: nat)
    requires i < |s| && s[i] in table && frameId == frame0 + i + 1
    requires earlier == StampAfterRun(table, s, i, scenes, seen, frame0, maxLights, r, before)
    requires table[s[i]].isActive ==> vis == seen(s[i])
    requires var p := table[s[i]];
      var scene := scenes(p.stage);
      now == if p.isActive
             then Restamp(scene, p.camera, vis.1, LookUpLights(scene, vis.0), maxLights, frameId, r, earlier)
             else earlier
    ensures now == StampAfterRun(table, s, i + 1, scenes, seen, frame0, maxLights, r, before)
  {
  }

  class RenderSequence {
    /** The window's per-frame clear flags (clear_every_frame_flags). */
    const windowClearFlags: nat
    /** The pipeline manager: every pipeline by id. */
    var pipelines: map<PipelineId, Pipeline>
    var ordered: seq<PipelineId>
    var nextId: nat
    /** The render count of each stage of the window. */
    var renderCount: map<nat, int>
    /** Whether the window is among the targets rendered this frame; the
        window is the only target run_pipeline renders to. */
    var windowRendered: bool
    /** The counter behind generate_frame_id. */
    var frameCounter: nat
    /** The window statistics run_pipeline and run report. */
    var geometryVisible: nat
    var subactorsRendered: nat
    ghost var trace: seq<Event>

    ghost predicate Valid()
      reads this
    {
      Ordered(ordered, pipelines, nextId) && (forall id :: id in pipelines ==> id in ordered)
    }

    constructor (clearFlags: nat)
      ensures Valid() && windowClearFlags == clearFlags
      ensures pipelines == map[] && ordered == [] && renderCount == map[]
      ensures !windowRendered && frameCounter == 0 && trace == []
    {
      windowClearFlags := clearFlags;
      pipelines := map[];
      ordered := [];
      nextId := 1;
      renderCount := map[];
      windowRendered := false;
      frameCounter := 0;
      geometryVisible := 0;
      subactorsRendered := 0;
      trace := [];
    }

    function RenderCount(stage: nat): int
      reads this
    {
      CountOf(renderCount, stage)
    }

    /** Pipeline::activate: only a real inactive-to-active change counts a
        render of the pipeline's stage, and only when it has one. */
    method Activate(id: PipelineId)
      requires id in pipelines
      modifies this`pipelines, this`renderCount
      ensures pipelines == old(pipelines)[id := old(pipelines)[id].(isActive := true)]
      ensures renderCount ==
        if !old(pipelines)[id].isActive && pipelines[id].stage != 0
        then Bump(old(renderCount), pipelines[id].stage, 1)
        else old(renderCount)
    {
      var p := pipelines[id];
      if p.isActive {
        assert p.(isActive := true) == p;
        return;
      }
      pipelines := pipelines[id := p.(isActive := true)];
      if p.stage != 0 {
        renderCount := Bump(renderCount, p.stage, 1);
      }
    }

    /** Pipeline::deactivate: only a real active-to-inactive change releases
        the stage. */
    method Deactivate(id: PipelineId)
      requires id in pipelines
      modifies this`pipelines, this`renderCount
      ensures pipelines == old(pipelines)[id := old(pipelines)[id].(isActive := false)]
      ensures renderCount ==
        if old(pipelines)[id].isActive && pipelines[id].stage != 0
        then Bump(old(renderCount), pipelines[id].stage, -1)
        else old(renderCount)
    {
      var p := pipelines[id];
      if !p.isActive {
        assert p.(isActive := false) == p;
        return;
      }
      pipelines := pipelines[id := p.(isActive := false)];
      if p.stage != 0 {
        renderCount := Bump(renderCount, p.stage, -1);
      }
    }

    /** sort_pipelines: a stable sort by ascending priority. */
    method SortPipelines()
      requires NoDuplicates(ordered)
      modifies this`ordered
      ensures ordered == Sort(old(ordered), Priorities(pipelines))
      ensures SortedBy(ordered, Priorities(pipelines))
      ensures multiset(ordered) == multiset(old(ordered)) && NoDuplicates(ordered)
    {
      var key := Priorities(pipelines);
      SortCorrect(ordered, key);
      ordered := Sort(ordered, key);
    }

    /** Pipeline::set_priority: the same priority changes nothing; another
        is stored and the list re-sorted. */
    method SetPriority(id: PipelineId, priority: int)
      requires Ordered(ordered, pipelines, nextId) && id in pipelines
      modifies this`pipelines, this`ordered
      ensures pipelines == old(pipelines)[id := old(pipelines)[id].(priority := priority)]
      ensures Ordered(ordered, pipelines, nextId)
      ensures multiset(ordered) == multiset(old(ordered))
      ensures ordered == Sort(old(ordered), Priorities(pipelines))
      ensures priority == old(pipelines)[id].priority ==> ordered == old(ordered)
      ensures id !in old(ordered) ==> ordered == old(ordered)
    {
      var p := pipelines[id];
      if p.priority != priority {
        pipelines := pipelines[id := p.(priority := priority)];
        Reprioritized(ordered, old(pipelines), pipelines, nextId, id);
        SortPipelines();
      } else {
        assert pipelines[id := p.(priority := priority)] == pipelines;
        Reprioritized(ordered, pipelines, pipelines, nextId, id);
      }
    }

    /** The push_back and sort_pipelines that end new_pipeline. */
    method PushBack(id: PipelineId)
      requires Ordered(ordered, pipelines, nextId) && id in pipelines && id !in ordered
      modifies this`ordered
      ensures Ordered(ordered, pipelines, nextId)
      ensures ordered == Sort(old(ordered) + [id], Priorities(pipelines))
      ensures multiset(ordered) == multiset(old(ordered)) + multiset{id}
    {
      ghost var before := ordered;
      ordered := ordered + [id];
      assert multiset(ordered) == multiset(before) + multiset{id};
      assert NoDuplicates(ordered) by {
        forall x ensures multiset(ordered)[x] <= 1 {
          assert x == id ==> multiset(before)[x] == 0;
        }
      }
      Resorted(ordered, pipelines, nextId);
      SortPipelines();
    }

    /** new_pipeline: a fresh active pipeline, placed after every pipeline
        whose priority is not greater than its own. */
    method NewPipeline(stage: nat, camera: nat, target: nat, priority: int) returns (id: PipelineId)
      requires Valid()
      modifies this`pipelines, this`ordered, this`nextId, this`renderCount
      ensures Valid()
      ensures id == old(nextId) && id !in old(pipelines)
      ensures pipelines == old(pipelines)[id := Pipeline(priority, true, stage, camera, target, 0)]
      ensures multiset(ordered) == multiset(old(ordered)) + multiset{id}
      ensures ordered == Sort(old(ordered) + [id], Priorities(pipelines))
      ensures renderCount ==
        if stage != 0 then Bump(old(renderCount), stage, 1) else old(renderCount)
    {
      id := nextId;
      var created := Pipeline(0, false, stage, camera, target, 0);
      Created(ordered, pipelines, nextId, created);
      pipelines := pipelines[id := created];
      nextId := nextId + 1;
      SetPriority(id, priority);
      UpdateTwice(old(pipelines), id, created, created.(priority := priority));
      PrioritiesIgnoreActivity(pipelines, id, true);
      Activate(id);
      assert renderCount == if stage != 0 then Bump(old(renderCount), stage, 1) else old(renderCount);
      UpdateTwice(old(pipelines), id, created.(priority := priority), created.(priority := priority, isActive := true));
      assert pipelines.Keys == old(pipelines).Keys + {id};
      PushBack(id);
      ListedAfterAdd(old(ordered), ordered, old(pipelines).Keys, pipelines.Keys, id);
    }

    /** delete_pipeline: an unknown id is ignored; otherwise the pipeline is
        deactivated and leaves the list and the manager. */
    method DeletePipeline(id: PipelineId)
      requires Valid()
      modifies this`pipelines, this`ordered, this`renderCount
      ensures Valid()
      ensures id !in old(pipelines) ==>
        (pipelines == old(pipelines) && ordered == old(ordered) && renderCount == old(renderCount))
      ensures id in old(pipelines) ==>
        (&& pipelines == old(pipelines) - {id}
         && ordered == Without(old(ordered), id)
         && renderCount ==
              if old(pipelines)[id].isActive && old(pipelines)[id].stage != 0
              then Bump(old(renderCount), old(pipelines)[id].stage, -1)
              else old(renderCount))
      ensures forall x :: multiset(ordered)[x] == if x == id then 0 else multiset(old(ordered))[x]
    {
      if id !in pipelines {
        assert id !in ordered;
        assert forall x :: multiset(ordered)[x] == if x == id then 0 else multiset(old(ordered))[x];
        return;
      }
      var removed := pipelines[id];
      if removed.isActive {
        PrioritiesIgnoreActivity(pipelines, id, false);
        Deactivate(id);
        RemoveAfterUpdate(old(pipelines), id, removed.(isActive := false));
      }
      Forget(id);
    }

    /** The remove_if over the list and the destroy in the manager. */
    method Forget(id: PipelineId)
      requires Valid() && id in pipelines
      modifies this`pipelines, this`ordered
      ensures Valid()
      ensures pipelines == old(pipelines) - {id}
      ensures ordered == Without(old(ordered), id)
      ensures forall x :: multiset(ordered)[x] == if x == id then 0 else multiset(old(ordered))[x]
    {
      ghost var s0, m0 := ordered, pipelines;
      Removed(s0, m0, nextId, id);
      ordered := Without(ordered, id);
      pipelines := pipelines - {id};
      assert ordered == Without(s0, id) && pipelines == m0 - {id};
      assert Ordered(ordered, pipelines, nextId);
    }

    /** active_pipelines: the ids of the active pipelines, in list order. */
    method ActivePipelines() returns (result: seq<PipelineId>)
      ensures result == ActiveIds(pipelines, ordered)
    {
      result := [];
      var i := 0;
      while i < |ordered|
        invariant 0 <= i <= |ordered|
        invariant result == ActiveIds(pipelines, ordered[..i])
      {
        assert ordered[..i + 1][..i] == ordered[..i];
        var id := ordered[i];
        if id in pipelines && pipelines[id].isActive {
          result := result + [id];
        }
        i := i + 1;
      }
      assert ordered[..i] == ordered;
    }

    /** run_pipeline: every call takes a frame id; an inactive pipeline
        stops there. */
    method RunPipeline(id: PipelineId, scene: StageScene, maxLights: nat, ghost touched: set<R.Renderable>)
      requires id in pipelines
      requires Covers(scene, touched) && Queries(scene)
      modifies this`frameCounter, this`windowRendered, this`trace, this`geometryVisible, scene.partitioner, touched
      ensures frameCounter == old(frameCounter) + 1
      ensures !pipelines[id].isActive ==>
        && windowRendered == old(windowRendered) && trace == old(trace)
        && geometryVisible == old(geometryVisible)
        && unchanged(scene.partitioner)
        && (forall r :: r in touched ==> unchanged(r))
      ensures pipelines[id].isActive ==>
        var p, q := pipelines[id], scene.partitioner;
        var seen := scene.query(q.State(), p.camera);
        && windowRendered
        && trace == old(trace) + RunEvents(id, p, frameCounter, old(windowRendered), windowClearFlags)
        && q.State() == NP.ApplyAll(old(q.State()), old(q.staged))
        && q.staged == []
        && geometryVisible == StampCount(scene, p.camera, seen.1)
        && forall r :: r in touched ==>
             StampedAfter(scene, p.camera, seen.1, LookUpLights(scene, seen.0), maxLights, frameCounter, r,
                          old(r.lastVisibleFrameId), old(r.lights))
    {
      var frameId := GenerateFrameId();
      var p := pipelines[id];
      if p.isActive {
        RunActive(id, p, frameId, scene, maxLights, touched);
      }
    }

    /** An active pipeline's run: the window is cleared on its first use in
        the frame, the viewport applied, the stage's pending partitioner
        writes applied, what the camera sees gathered, and each visible
        renderable that has indices stamped with the frame id and the lights
        that reach it. */
    method RunActive(id: PipelineId, p: Pipeline, frameId: nat, scene: StageScene, maxLights: nat,
                     ghost touched: set<R.Renderable>)
      requires Covers(scene, touched) && Queries(scene)
      modifies this`windowRendered, this`trace, this`geometryVisible, scene.partitioner, touched
      ensures windowRendered
      ensures trace == old(trace) + RunEvents(id, p, frameId, old(windowRendered), windowClearFlags)
      ensures scene.partitioner.State() == NP.ApplyAll(old(scene.partitioner.State()), old(scene.partitioner.staged))
      ensures scene.partitioner.staged == []
      ensures var seen := scene.query(scene.partitioner.State(), p.camera);
        && geometryVisible == StampCount(scene, p.camera, seen.1)
        && forall r :: r in touched ==>
             StampedAfter(scene, p.camera, seen.1, LookUpLights(scene, seen.0), maxLights, frameId, r,
                          old(r.lastVisibleFrameId), old(r.lights))
    {
      BeginPipeline(id, p);
      var count := RenderStage(scene, p.camera, maxLights, frameId, touched);
      EndPipeline(id, p, frameId, count);
      RunEventsSplit(id, p, frameId, old(windowRendered), windowClearFlags, old(trace));
    }

    /** The end of an active run_pipeline: the window statistics get the
        number of stamped renderables, the render queue is traversed and the
        stage and pipeline signals fire. */
    method EndPipeline(id: PipelineId, p: Pipeline, frameId: nat, count: nat)
      modifies this`geometryVisible, this`trace
      ensures geometryVisible == count
      ensures trace == old(trace) + PostRenderEvents(id, p, frameId)
    {
      geometryVisible := count;
      trace := trace + PostRenderEvents(id, p, frameId);
    }

    /** The start of an active run_pipeline: the first use of the window in
        the frame clears it when it asks for that and records it; then the
        viewport is cleared or applied and the pipeline and stage signals
        fire. */
    method BeginPipeline(id: PipelineId, p: Pipeline)
      modifies this`windowRendered, this`trace
      ensures windowRendered
      ensures trace == old(trace) + PreRenderEvents(id, p, old(windowRendered), windowClearFlags)
    {
      if !windowRendered {
        if windowClearFlags != 0 {
          trace := trace + [ClearTarget(Window, windowClearFlags)];
        }
        windowRendered := true;
      }
      if p.clearFlags != 0 {
        trace := trace + [ViewportClear(id, p.clearFlags), PipelineStarted(id), StagePreRender(p.stage, p.camera)];
      } else {
        trace := trace + [ViewportApply(id), PipelineStarted(id), StagePreRender(p.stage, p.camera)];
      }
    }

    /** run: no target counts as rendered when the frame starts (the window,
        the only target, is tracked by a flag) and every listed pipeline runs
        in list order with the next frame id, so the window is cleared at most
        once per frame, exactly when some listed pipeline is active and the
        window asks for it; each stage an active pipeline draws has its
        pending partitioner writes applied, and each renderable ends up with
        the stamp of the last active pipeline that showed it. */
    method Run(scenes: nat -> StageScene, maxLights: nat, ghost partitioners: set<NP.NullPartitioner>,
               ghost touched: set<R.Renderable>)
      requires forall id :: id in ordered ==> id in pipelines
      requires forall id :: id in pipelines ==>
        var scene := scenes(pipelines[id].stage);
        scene.partitioner in partitioners && Covers(scene, touched) && Queries(scene)
      modifies this`frameCounter, this`windowRendered, this`trace, this`geometryVisible, this`subactorsRendered
      modifies partitioners, touched
      ensures frameCounter == old(frameCounter) + |ordered|
      ensures windowRendered == (ActiveIds(pipelines, ordered) != [])
      ensures trace == old(trace) + RunTrace(pipelines, ordered, |ordered|, old(frameCounter), windowClearFlags)
      ensures Clears(trace) == Clears(old(trace)) + if ActiveIds(pipelines, ordered) != [] && windowClearFlags != 0 then 1 else 0
      ensures forall q :: q in partitioners ==>
        if q in ActivePartitioners(pipelines, scenes, ordered, |ordered|)
        then q.State() == NP.ApplyAll(old(q.State()), old(q.staged)) && q.staged == []
        else q.State() == old(q.State()) && q.staged == old(q.staged)
      ensures var seen := SeenBy(pipelines, scenes, old(SnapshotOf(partitioners)));
        && (forall r :: r in touched ==>
              (r.lastVisibleFrameId, r.lights) ==
                StampAfterRun(pipelines, ordered, |ordered|, scenes, seen, old(frameCounter), maxLights, r,
                              (old(r.lastVisibleFrameId), old(r.lights))))
        && geometryVisible == GeometryAfterRun(pipelines, ordered, |ordered|, scenes, seen, old(geometryVisible))
      ensures subactorsRendered == 0
    {
      ghost var snap := SnapshotOf(partitioners);
      ghost var seen := SeenBy(pipelines, scenes, snap);
      ghost var stamps := Stamps(touched);
      windowRendered := false;
      var i := 0;
      while i < |ordered|
        invariant 0 <= i <= |ordered|
        invariant frameCounter == old(frameCounter) + i
        invariant windowRendered == AnyActive(pipelines, ordered, i)
        invariant trace == old(trace) + RunTrace(pipelines, ordered, i, old(frameCounter), windowClearFlags)
        invariant DrainedNow(partitioners, snap, ActivePartitioners(pipelines, scenes, ordered, i))
        invariant forall r :: r in touched ==>
          (r.lastVisibleFrameId, r.lights) ==
            StampAfterRun(pipelines, ordered, i, scenes, seen, old(frameCounter), maxLights, r, stamps[r])
        invariant geometryVisible == GeometryAfterRun(pipelines, ordered, i, scenes, seen, old(geometryVisible))
      {
        RunListed(i, scenes, maxLights, partitioners, touched, snap, seen, stamps, old(frameCounter), old(trace),
                  old(geometryVisible));
        i := i + 1;
      }
      forall q | q in partitioners
        ensures if q in ActivePartitioners(pipelines, scenes, ordered, |ordered|)
          then q.State() == NP.ApplyAll(old(q.State()), old(q.staged)) && q.staged == []
          else q.State() == old(q.State()) && q.staged == old(q.staged)
      {
        assert snap[q] == (old(q.State()), old(q.staged));
      }
      forall r | r in touched
        ensures (r.lastVisibleFrameId, r.lights) ==
          StampAfterRun(pipelines, ordered, |ordered|, scenes, seen, old(frameCounter), maxLights, r,
                        (old(r.lastVisibleFrameId), old(r.lights)))
      {
        assert stamps[r] == (old(r.lastVisibleFrameId), old(r.lights));
      }
      AnyActiveIds(pipelines, ordered, |ordered|);
      assert ordered[..|ordered|] == ordered;
      RunTraceClears(pipelines, ordered, |ordered|, old(frameCounter), windowClearFlags);
      ClearsAppend(old(trace), RunTrace(pipelines, ordered, |ordered|, old(frameCounter), windowClearFlags));
      subactorsRendered := 0;
    }

    /** The body of run's loop: run_pipeline on the `i`-th listed pipeline
        carries run's specification from the first `i` ids to the first
        `i + 1`. */
    method RunListed(i: nat, scenes: nat -> StageScene, maxLights: nat, ghost partitioners: set<NP.NullPartitioner>,
                     ghost touched: set<R.Renderable>, ghost snap: Snapshot,
                     ghost seen: PipelineId -> (seq<LightId>, seq<NP.NodeId>),
                     ghost stamps: map<R.Renderable, (nat, seq<LightView>)>,
                     ghost frame0: nat, ghost trace0: seq<Event>, ghost geometry0: nat)
      requires i < |ordered|
      requires forall id :: id in ordered ==> id in pipelines
      requires forall id :: id in pipelines ==>
        var scene := scenes(pipelines[id].stage);
        scene.partitioner in partitioners && Covers(scene, touched) && Queries(scene)
      requires snap.Keys == partitioners && stamps.Keys == touched && seen == SeenBy(pipelines, scenes, snap)
      requires frameCounter == frame0 + i
      requires windowRendered == AnyActive(pipelines, ordered, i)
      requires trace == trace0 + RunTrace(pipelines, ordered, i, frame0, windowClearFlags)
      requires DrainedNow(partitioners, snap, ActivePartitioners(pipelines, scenes, ordered, i))
      requires forall r :: r in touched ==>
        (r.lastVisibleFrameId, r.lights) == StampAfterRun(pipelines, ordered, i, scenes, seen, frame0, maxLights, r, stamps[r])
      requires geometryVisible == GeometryAfterRun(pipelines, ordered, i, scenes, seen, geometry0)
      modifies this`frameCounter, this`windowRendered, this`trace, this`geometryVisible, partitioners, touched
      ensures frameCounter == frame0 + i + 1
      ensures windowRendered == AnyActive(pipelines, ordered, i + 1)
      ensures trace == trace0 + RunTrace(pipelines, ordered, i + 1, frame0, windowClearFlags)
      ensures DrainedNow(partitioners, snap, ActivePartitioners(pipelines, scenes, ordered, i + 1))
      ensures forall r :: r in touched ==>
        (r.lastVisibleFrameId, r.lights) ==
          StampAfterRun(pipelines, ordered, i + 1, scenes, seen, frame0, maxLights, r, stamps[r])
      ensures geometryVisible == GeometryAfterRun(pipelines, ordered, i + 1, scenes, seen, geometry0)
    {
      var id := ordered[i];
      var scene := scenes(pipelines[id].stage);
      ghost var q := scene.partitioner;
      ghost var used := ActivePartitioners(pipelines, scenes, ordered, i);
      RunPipeline(id, scene, maxLights, touched);
      ghost var vis := scene.query(q.State(), pipelines[id].camera);
      if pipelines[id].isActive {
        SeenAfterDrain(pipelines, scenes, snap, used, id, q.State(), vis);
      }
      TraceAfterStep(pipelines, ordered, i, frame0, windowClearFlags, trace0, old(windowRendered), old(trace), trace,
                     frameCounter);
      forall r | r in touched
        ensures (r.lastVisibleFrameId, r.lights) ==
          StampAfterRun(pipelines, ordered, i + 1, scenes, seen, frame0, maxLights, r, stamps[r])
      {
        StampAfterStep(pipelines, ordered, i, scenes, seen, frame0, maxLights, r, stamps[r],
                       old((r.lastVisibleFrameId, r.lights)), (r.lastVisibleFrameId, r.lights), vis, frameCounter);
      }
      forall q' | q' in partitioners
        ensures (q'.State(), q'.staged) == DrainedEntry(snap, ActivePartitioners(pipelines, scenes, ordered, i + 1), q')
      {
        DrainStep(snap, used, q, pipelines[id].isActive, q', old((q'.State(), q'.staged)), (q'.State(), q'.staged));
      }
    }

    /** generate_frame_id: the next value of a counter that only grows. */
    method GenerateFrameId() returns (frameId: nat)
      modifies this`frameCounter
      ensures frameId == old(frameCounter) + 1 && frameCounter == frameId
    {
      frameCounter := frameCounter + 1;
      frameId := frameCounter;
    }
  }
}
