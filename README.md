# Simulant render bookkeeping and input state machines, in Dafny

This project models the sequential core of the Simulant engine. It covers the
per-frame rendering bookkeeping and the small buffer, parser and input state
machines around it.

- **Render sequence.** Pipelines are switched on and off, and each switch
  keeps a per-stage render count. The pipeline list is kept stably sorted by
  priority. Each pipeline run takes a fresh frame id. The window is cleared at
  most once per run. Every renderable of a visible node is stamped with the
  frame id and the lights that affect it: directional lights first, then the
  nearest.
- **Null partitioner.** Staged add/remove/update writes are applied to four
  id sets. The visibility query appends what the camera sees to the caller's
  lists.
- **GL2 batcher.** Each visible (renderable, pass) pair is filed in the render
  tree under a ten-level group path, then in one or more leaves according to
  the pass's iteration policy. The model also gives the GL calls made by the
  bind and unbind of the light, material, blend, depth and render-settings
  groups.
- **Renderable stamps and lights.**
  - A renderable remembers the last frame it was seen in, and its lights.
  - A light's type decides how it is culled.
  - A directional light keeps its direction, reversed, in its position.
- **Index and vertex buffers.**
  - Index data is stored little-endian, 1, 2 or 4 bytes per index, with
    range checks on the way in.
  - Vertex data is copied between buffers.
  - A vertex layout's attribute sizes give its stride and the attribute
    offsets.
- **Mesh edge adjacency.** Vertices at the same position are merged. Each
  directed edge is then paired with its reverse into one edge record.
- **PCX loader.** It reads the 128-byte header and the 8-bit run-length
  encoded image. It looks up a 256-colour palette at the end of the file, or
  uses the header's 16-colour palette.
- **UI input.**
  - A widget tracks the fingers on it and fires pressed, released and
    clicked.
  - Widgets are linked in a focus chain that focus moves along.
  - The UI manager queues touch events and replays the queue on every render,
    without consuming it.
  - An overlay ignores input while it is not rendered.
  - The event-listener registry builds events and dispatches them.

Floating-point geometry is not modelled. Frustum and bounding-box tests,
squared distances, projections, widget hit tests and edge normals are
parameters: functions or predicates the caller supplies. Signals, profiler
calls and clears go into a ghost event trace on the object that raises them.
GL calls are values that bind and unbind return.

A stage's partitioner is queried through the scene's `query` function, which
`Queries` ties to the null partitioner's visibility query. `run` is stated
as the composition of `run_pipeline` over the listed pipelines in list order:
the trace it leaves (`RunTrace`), the partitioners it drains
(`ActivePartitioners`), the stamps the renderables end with (`StampAfterRun`)
and the geometry count (`GeometryAfterRun`).

## Model

| member | source | states |
|---|---|---|
| Light.Negate | simulant/nodes/light.h:43-46 | the reversed vector: moving by a vector and then by its reverse returns to the origin |
| Light.NegateInvolutive | simulant/nodes/light.h:35-46 | negating twice gives the vector back, so a direction stored reversed reads back unchanged |
| Light.CullingModeFor | simulant/nodes/light.h:21-27 | a light is never culled if and only if it is directional; otherwise the partitioner culls it |
| Light.Light.constructor | simulant/nodes/light.h:20-27 | a new light has the given id, type, position and parent position, and is culled by the partitioner whatever its type |
| Light.Light.SetType | simulant/nodes/light.h:21-27 | the type is stored and the culling mode follows it (never for directional, partitioner otherwise) |
| Light.Light.AbsolutePosition | simulant/nodes/light.h:35-37 | the world position: the position relative to the parent translated by the parent's; the position itself when the parent sits at the origin |
| Light.Light.Direction | simulant/nodes/light.h:29-37 | direction() reads the absolute position, where set_direction stores the direction reversed; with the parent at the origin that is the stored position |
| Light.Light.SetDirection | simulant/nodes/light.h:29-46 | the light becomes directional and never culled; its position relative to its parent becomes the negated direction, so direction() translated back by the parent position is -d, and with the parent at the origin direction() negated is d |
| Light.Light.SetDiffuse | simulant/nodes/light.h:48-50 | the diffuse getter returns the colour set |
| Light.Light.SetAmbient | simulant/nodes/light.h:52-54 | the ambient getter returns the colour set |
| Light.Light.SetSpecular | simulant/nodes/light.h:56-58 | the specular getter returns the colour set |
| Light.Light.Type | simulant/nodes/light.h:60 | reference definition, no ensures: the stored type (SetType and SetDirection state what it reads back) |
| Light.Light.Ambient | simulant/nodes/light.h:61 | reference definition, no ensures: the stored ambient colour (SetAmbient states the read-back) |
| Light.Light.Diffuse | simulant/nodes/light.h:62 | reference definition, no ensures: the stored diffuse colour (SetDiffuse states the read-back) |
| Light.Light.Specular | simulant/nodes/light.h:63 | reference definition, no ensures: the stored specular colour (SetSpecular states the read-back) |
| Light.Light.Range | simulant/nodes/light.h:71 | reference definition, no ensures: the stored range |
| Light.Light.RenderableCullingMode | simulant/nodes/light.h:83 | reference definition, no ensures: the stored culling mode (SetType states it follows the type) |
| Renderable.Renderable.constructor | kglt/renderers/batching/renderable.h:53-54 | a new renderable has last-visible frame 0, counts as visible in frame 0 and has no lights |
| Renderable.Renderable.UpdateLastVisibleFrameId | kglt/renderers/batching/renderable.h:36-42 | afterwards the renderable is visible in exactly the given frame and in no other; its lights are unchanged |
| Renderable.Renderable.SetAffectedByLights | kglt/renderers/batching/renderable.h:44-50 | lights_affecting_this_frame returns the list set; the frame stamp is unchanged |
| EventListener.TouchAt | simulant/event_listener.cpp:8-12 | the event built has the given type, id and normalized coordinate, the window coordinate from the window's conversion, and no movement |
| EventListener.HandleTouchBegin | simulant/event_listener.cpp:7-15 | a FINGER_DOWN event for the touch goes to on_touch_begin |
| EventListener.HandleTouchEndAsWritten | simulant/event_listener.cpp:17-25 | as written: a FINGER_UP event for the touch goes to on_touch_begin |
| EventListener.TouchEndAsWrittenMisroutes | simulant/event_listener.cpp:17-25 | as written, a FINGER_UP reaches on_touch_begin and never on_touch_end |
| EventListener.HandleTouchEnd | simulant/event_listener.cpp:17-25 | corrected: the FINGER_UP event for the touch goes to on_touch_end |
| EventListener.TouchEndSameEvent | simulant/event_listener.cpp:17-25 | the correction changes only the handler; the event built is the same |
| EventListener.HandleTouchMove | simulant/event_listener.cpp:27-36 | a FINGER_MOVE event with movement (dx, dy) goes to on_touch_move |
| EventListener.HandleKeyDown | simulant/event_listener.cpp:38-44 | a KEY_DOWN event with the key code goes to on_key_down |
| EventListener.HandleKeyUp | simulant/event_listener.cpp:46-52 | a KEY_UP event with the key code goes to on_key_up |
| EventListener.Removed | simulant/event_listener.cpp:58-60 | std::list::remove leaves no occurrence of the listener and the same number of every other listener |
| EventListener.RemovedAppend | simulant/event_listener.cpp:58-60 | removal acts element by element, so the remaining listeners keep their relative order |
| EventListener.RemovedAbsent | simulant/event_listener.cpp:58-60 | removing a listener that is not registered changes nothing |
| EventListener.RegisterUnregister | simulant/event_listener.cpp:54-60 | registering a new listener and then unregistering it restores the registry |
| EventListener.EventListenerManager.constructor | simulant/event_listener.cpp:54-56 | the registry starts empty |
| EventListener.EventListenerManager.Register | simulant/event_listener.cpp:54-56 | the listener is appended at the back |
| EventListener.EventListenerManager.Unregister | simulant/event_listener.cpp:58-60 | the registry becomes Removed(old registry, listener) |
| EventListener.EventListenerManager.EachEventListener | simulant/event_listener.cpp:62-66 | the callback is applied to every listener, in registration order |
| Overlay.Overlay.constructor | simulant/overlay.cpp:28-39 | no button or finger is down at the start |
| Overlay.Overlay.HandleMouseDown | simulant/overlay.cpp:89-93 | a button goes down only while the overlay is rendered |
| Overlay.Overlay.HandleMouseUp | simulant/overlay.cpp:95-105 | with the render check on and the overlay not rendered, nothing changes; otherwise the button is released; releasing a button that is not down changes nothing |
| Overlay.Overlay.HandleTouchDown | simulant/overlay.cpp:131-135 | a finger goes down only while the overlay is rendered |
| Overlay.Overlay.HandleTouchUp | simulant/overlay.cpp:107-116 | with the render check on and the overlay not rendered, nothing changes; otherwise the finger is released; releasing a finger that is not down changes nothing |
| Overlay.Overlay.HandleTouchMotion | simulant/overlay.cpp:118-129 | motion passes on exactly when the overlay is rendered and the finger is down |
| Overlay.Overlay.HandleMouseMove | simulant/overlay.cpp:84-87 | motion passes on exactly when the overlay is rendered |
| Overlay.Overlay.OnRenderStopped | simulant/overlay.cpp:137-150 | every button and finger is released, whatever the render state |
| NullPartitioner.WithSet | simulant/partitioners/null_partitioner.h:43-46 | replacing one of the four id sets sets that one and leaves the other three unchanged |
| NullPartitioner.Target | simulant/partitioners/null_partitioner.cpp:64-84 | a write targets the first non-zero id among actor, geom, light and particle system, in that order, and nothing when all are zero |
| NullPartitioner.Apply | simulant/partitioners/null_partitioner.cpp:64-88 | ADD inserts the target id into its set and REMOVE erases it; UPDATE, or a write with no id, changes nothing |
| NullPartitioner.ApplyTouchesOnlyTarget | simulant/partitioners/null_partitioner.cpp:64-84 | a write leaves every set other than its target's unchanged |
| NullPartitioner.RemoveAbsentIsNoOp | simulant/partitioners/null_partitioner.cpp:75-84 | removing an id that is not in its set changes nothing |
| NullPartitioner.AddIdempotent | simulant/partitioners/null_partitioner.cpp:65-74 | applying the same ADD twice is the same as applying it once |
| NullPartitioner.AddThenRemoveRestores | simulant/partitioners/null_partitioner.cpp:64-84 | an ADD of a new id followed by the matching REMOVE restores the sets |
| NullPartitioner.VisibleLights | simulant/partitioners/null_partitioner.cpp:35-41 | a light is reported if and only if it is listed and is directional or its box meets the frustum |
| NullPartitioner.LightVisible | simulant/partitioners/null_partitioner.cpp:35-41 | reference definition, no ensures: a light is reported when it is directional or its box meets the frustum |
| NullPartitioner.VisibleNodes | simulant/partitioners/null_partitioner.cpp:47-51 | a node is reported if and only if it is listed and its box meets the frustum |
| NullPartitioner.VisibleNodesAppend | simulant/partitioners/null_partitioner.cpp:43-60 | filtering acts element by element, so the reported nodes keep the order of the input |
| NullPartitioner.ParticleNodes | simulant/partitioners/null_partitioner.cpp:54-58 | each particle system id is mapped to its node, in order |
| NullPartitioner.VisibleSubactors | simulant/partitioners/null_partitioner.cpp:43-52 | reference definition, no ensures: the visible subactors of each actor in turn (AppendVisibleSubactors proves the loop gives it) |
| NullPartitioner.VisibleFrom | simulant/partitioners/null_partitioner.cpp:30-62 | reference definition, no ensures: the visible lights of the ascending light ids, and the visible subactors followed by the visible particle system nodes (LightsAndGeometryVisibleFrom proves the query appends exactly this) |
| NullPartitioner.GeomsNeverReported | simulant/partitioners/null_partitioner.cpp:30-62 | the geom set does not affect what the query reports |
| NullPartitioner.NullPartitioner.constructor | simulant/partitioners/null_partitioner.h:43-46 | all four sets start empty and no write is staged |
| NullPartitioner.NullPartitioner.StageWrite | simulant/render_sequence.cpp:255 | a write is queued at the back until the next render applies it |
| NullPartitioner.NullPartitioner.ApplyStagedWrite | simulant/partitioners/null_partitioner.cpp:64-88 | the four sets become Apply(old sets, write); the queue is unchanged |
| NullPartitioner.NullPartitioner.ApplyWrites | simulant/render_sequence.cpp:255 | every queued write is applied in order and the queue is emptied |
| NullPartitioner.NullPartitioner.LightsAndGeometryVisibleFrom | simulant/partitioners/null_partitioner.cpp:30-62 | the outputs are the inputs with the visible lights and the visible subactors and particle systems appended; nothing is removed |
| NullPartitioner.AppendVisibleLights | simulant/partitioners/null_partitioner.cpp:35-41 | the lights loop appends exactly VisibleLights of the ascending light ids |
| NullPartitioner.AppendVisibleNodes | simulant/partitioners/null_partitioner.cpp:47-51 | the subactor loop appends exactly the subactors whose boxes meet the frustum |
| NullPartitioner.AppendVisibleSubactors | simulant/partitioners/null_partitioner.cpp:43-52 | the actor loop appends the visible subactors of each actor in turn |
| NullPartitioner.ParticleStep | simulant/partitioners/null_partitioner.cpp:54-60 | one more particle system adds its node exactly when that node is visible |
| NullPartitioner.AppendVisibleParticleSystems | simulant/partitioners/null_partitioner.cpp:54-60 | the particle loop appends exactly the particle system nodes whose boxes meet the frustum |
| Ordered.Min | simulant/partitioners/null_partitioner.h:43-46 | the least element of a non-empty id set |
| Ordered.Ascending | simulant/partitioners/null_partitioner.h:43-46 | iterating a std::set lists each element exactly once, in strictly increasing order |
| StableSort.WithKey | simulant/render_sequence.cpp:150-163 | the entries with one priority, in list order |
| StableSort.WithKeyAppend | simulant/render_sequence.cpp:150-163 | taking the entries with one priority works element by element |
| StableSort.InsertPermutes | simulant/render_sequence.cpp:150-163 | inserting one element into the list adds exactly that element |
| StableSort.InsertKeepsOrder | simulant/render_sequence.cpp:150-163 | inserting into a list sorted by priority keeps it sorted |
| StableSort.InsertStable | simulant/render_sequence.cpp:150-163 | the inserted element goes after every element of equal priority |
| StableSort.SortCorrect | simulant/render_sequence.cpp:150-163 | std::list::sort gives a list sorted by ascending priority, with the same elements, in which elements of equal priority keep their order |
| StableSort.SortOfSortedIsIdentity | simulant/render_sequence.cpp:150-163 | sorting a list that is already sorted leaves it unchanged |
| StableSort.SortedPrefix | simulant/render_sequence.cpp:150-163 | every prefix of a sorted list is sorted |
| StableSort.SortDependsOnListedKeys | simulant/render_sequence.cpp:150-163 | the sort depends only on the priorities of the listed pipelines |
| RenderSequence.Without | simulant/render_sequence.cpp:134 | remove_if never makes the list longer |
| RenderSequence.WithoutCounts | simulant/render_sequence.cpp:134 | remove_if leaves no entry with the id and keeps every other entry as often as before |
| RenderSequence.WithoutKeepsOrder | simulant/render_sequence.cpp:134 | removing entries from a sorted list keeps it sorted |
| RenderSequence.ActiveIds | simulant/render_sequence.cpp:100-110 | the active pipeline ids, never more than the list holds |
| RenderSequence.ActiveIdsAreActive | simulant/render_sequence.cpp:100-110 | an id is reported if and only if it is listed and its pipeline is active |
| RenderSequence.Clears | simulant/render_sequence.cpp:221-228 | counts the target clears in a trace |
| RenderSequence.ClearsAppend | simulant/render_sequence.cpp:221-228 | clears add up over consecutive parts of the trace |
| RenderSequence.NoClears | simulant/render_sequence.cpp:221-228 | a trace without clear events counts zero clears |
| RenderSequence.PreRenderEvents | simulant/render_sequence.cpp:221-250 | the events before rendering clear the window once if it has not been rendered to this frame and has clear flags, and never otherwise |
| RenderSequence.PostRenderEvents | simulant/render_sequence.cpp:329-343 | the events after rendering never clear |
| RenderSequence.RunEvents | simulant/render_sequence.cpp:205-345 | an active pipeline's run clears at most once, and only when the window is not yet rendered this frame and has clear flags |
| RenderSequence.RunEventsSplit | simulant/render_sequence.cpp:205-345 | a run's events are the events before rendering followed by those after |
| RenderSequence.LookUpLights | simulant/render_sequence.cpp:270-272 | each visible light id is mapped to its light, in order |
| RenderSequence.LastOwner | simulant/render_sequence.cpp:278-325 | the node whose stamp a renderable ends with is a visible node that lists the renderable, and only renderables with indices are stamped |
| RenderSequence.DrawnCount | simulant/render_sequence.cpp:315-324 | no more renderables are counted than there are |
| RenderSequence.StampRenderables | simulant/render_sequence.cpp:315-324 | every renderable with a non-zero index count gets the frame id and the light list and is counted; the others are neither stamped nor counted |
| RenderSequence.StampNodes | simulant/render_sequence.cpp:278-325 | after the node loop each renderable carries the frame id and the lights of the last visible node that lists it; any renderable not drawn keeps its old stamp |
| RenderSequence.Bump | simulant/render_sequence.cpp:60-78 | changing one stage's render count changes that count by the delta and no other |
| RenderSequence.Resorted | simulant/render_sequence.cpp:150-163 | sorting gives a list sorted by priority with no duplicates and the same entries |
| RenderSequence.Reprioritized | simulant/render_sequence.cpp:47-54 | after a priority change and a re-sort the list is sorted again and holds the same entries; it is unchanged when the priority is unchanged |
| RenderSequence.Removed | simulant/render_sequence.cpp:124-136 | after deletion the list is still sorted, lists every remaining pipeline and holds no entry for the deleted id |
| RenderSequence.Created | simulant/render_sequence.cpp:165-182 | a new pipeline id is fresh: neither listed nor known |
| RenderSequence.PrioritiesIgnoreActivity | simulant/render_sequence.cpp:60-78 | switching a pipeline on or off does not change the sort keys |
| RenderSequence.ListedAfterAdd | simulant/render_sequence.cpp:177-179 | after push_back and a sort every known pipeline is listed |
| RenderSequence.ListedAfterRemove | simulant/render_sequence.cpp:134-135 | after remove_if and destroy, the listed ids are exactly the known ids |
| RenderSequence.SortedByAgree | simulant/render_sequence.cpp:150-163 | sortedness depends only on the keys of the listed entries |
| RenderSequence.SortUnaffected | simulant/render_sequence.cpp:47-54 | re-sorting a sorted list under keys that agree on it leaves it unchanged |
| RenderSequence.RenderStage | simulant/render_sequence.cpp:255-325 | the staged writes are applied and the queue emptied; with what the stage's partitioner reports for the camera, every visible node's renderables are stamped with the frame id and their lights, and the count is the number stamped |
| RenderSequence.AnyActive | simulant/render_sequence.cpp:188-197 | reference definition, no ensures: whether one of the first n listed pipelines is active |
| RenderSequence.AnyActiveIds | simulant/render_sequence.cpp:100-110 | some of the first n listed pipelines is active exactly when the active ids among them are not empty |
| RenderSequence.RunTrace | simulant/render_sequence.cpp:188-197 | reference definition, no ensures: the run events of the active listed pipelines in list order, the k-th listed one with the k-th frame id after the start and the window counted as rendered once an earlier one was active |
| RenderSequence.RunTraceClears | simulant/render_sequence.cpp:188-228 | the events of a frame clear the window once when some listed pipeline is active and the window has clear flags, and never otherwise |
| RenderSequence.ActivePartitioners | simulant/render_sequence.cpp:188-197 | reference definition, no ensures: the partitioners of the stages drawn by the active listed pipelines |
| RenderSequence.DrainStep | simulant/render_sequence.cpp:255 | draining the partitioner of one more active pipeline, and leaving every other partitioner alone, moves each partitioner to its drained entry for the larger set; draining one that an earlier pipeline drained changes nothing |
| RenderSequence.SeenBy | simulant/render_sequence.cpp:255-272 | reference definition, no ensures: what a pipeline's camera sees of its stage once the partitioner's pending writes are applied |
| RenderSequence.SeenAfterDrain | simulant/render_sequence.cpp:255-272 | a pipeline sees the same thing whether or not an earlier pipeline of the frame drained the same partitioner |
| RenderSequence.StampAfterRun | simulant/render_sequence.cpp:188-197 | a renderable's stamp after the loop is its old stamp or carries one of the frame ids handed out in this run; each active pipeline restamps what its stage shows it |
| RenderSequence.GeometryAfterRun | simulant/render_sequence.cpp:188-197 | the visible-geometry statistic is the count of the last active listed pipeline, and unchanged when none is active |
| RenderSequence.TraceAfterStep | simulant/render_sequence.cpp:191-193 | one more run_pipeline extends the trace to RunTrace of one more listed pipeline |
| RenderSequence.StampAfterStep | simulant/render_sequence.cpp:191-193 | one more run_pipeline moves a renderable's stamp to StampAfterRun of one more listed pipeline |
| RenderSequence.RenderSequence.constructor | simulant/render_sequence.cpp:80-89 | no pipelines, no render counts, the window not yet rendered, frame counter 0 |
| RenderSequence.RenderSequence.Activate | simulant/render_sequence.cpp:70-78 | the pipeline becomes active; its stage's render count goes up by one only on a real inactive-to-active change with a stage set |
| RenderSequence.RenderSequence.Deactivate | simulant/render_sequence.cpp:60-68 | the pipeline becomes inactive; its stage's render count goes down by one only on a real active-to-inactive change with a stage set |
| RenderSequence.RenderSequence.SortPipelines | simulant/render_sequence.cpp:150-163 | the list becomes its stable sort by priority: sorted, a permutation, still without duplicates |
| RenderSequence.RenderSequence.SetPriority | simulant/render_sequence.cpp:47-54 | the priority is stored and the list is re-sorted and stays sorted; the same priority leaves the list as it was |
| RenderSequence.RenderSequence.PushBack | simulant/render_sequence.cpp:177-179 | the id is added once and the list is sorted again |
| RenderSequence.RenderSequence.NewPipeline | simulant/render_sequence.cpp:165-182 | a fresh id whose pipeline is active, with the given settings, appears exactly once in the sorted list; its stage's render count goes up by one |
| RenderSequence.RenderSequence.DeletePipeline | simulant/render_sequence.cpp:124-136 | an unknown id changes nothing; otherwise the pipeline is deactivated (its stage count drops if it was active), forgotten, and its entries leave the list while the others keep their order |
| RenderSequence.RenderSequence.Forget | simulant/render_sequence.cpp:134-135 | the pipeline is destroyed and no entry for it remains; other entries are kept |
| RenderSequence.RenderSequence.ActivePipelines | simulant/render_sequence.cpp:100-110 | the active ids in list order |
| RenderSequence.RenderSequence.RunPipeline | simulant/render_sequence.cpp:205-345 | every call takes a fresh frame id; an inactive pipeline changes nothing else; an active one renders to the window, logs its run events (clearing the window at most once per frame), drains its stage's partitioner, stamps what its camera sees after the drain and records the count |
| RenderSequence.RenderSequence.RunActive | simulant/render_sequence.cpp:214-345 | the body of run_pipeline for an active pipeline: the before- and after-render events, the partitioner drained, the renderables its camera sees stamped and their count recorded |
| RenderSequence.RenderSequence.EndPipeline | simulant/render_sequence.cpp:329-343 | the visible geometry count is recorded and the after-render events are logged |
| RenderSequence.RenderSequence.BeginPipeline | simulant/render_sequence.cpp:221-239 | the window counts as rendered and the before-render events are logged |
| RenderSequence.RenderSequence.Run | simulant/render_sequence.cpp:188-197 | every listed pipeline runs in list order with the next frame id: the trace grows by RunTrace, so the window is cleared exactly once when some listed pipeline is active and it has clear flags and never otherwise; exactly the partitioners of active pipelines' stages are drained; each renderable ends with StampAfterRun and the geometry count with GeometryAfterRun; subactors rendered is reported as 0 |
| RenderSequence.RenderSequence.GenerateFrameId | simulant/render_sequence.cpp:200-203 | each frame id is one more than the previous one, the first being 1 |
| LightAssignment.FilterLights | simulant/render_sequence.cpp:283-292 | a light is kept if and only if it is visible and affects the node: directional, a spot light whose box meets the node, or a point light whose sphere of twice its range around its absolute position meets the node |
| LightAssignment.FilterLightsCount | simulant/render_sequence.cpp:283-292 | each affecting light is kept as many times as it is listed, and every other light is dropped |
| LightAssignment.FilterLightsAppend | simulant/render_sequence.cpp:283-292 | the filter acts light by light, so the kept lights stay in the order they are listed |
| LightAssignment.Affects | simulant/render_sequence.cpp:283-292 | reference definition, no ensures: directional lights always affect a node; spot lights when the boxes meet; point lights when the node meets the sphere of twice the range around the absolute position |
| LightAssignment.Less | simulant/render_sequence.cpp:298-312 | reference definition, no ensures: the comparator, whose meaning LessIsLexicographic states |
| LightAssignment.LessIsLexicographic | simulant/render_sequence.cpp:298-312 | the comparison puts directional lights first and then lights nearer to the node by their position() relative to the parent |
| LightAssignment.ArgMin | simulant/render_sequence.cpp:294-313 | no light comes strictly before the chosen one |
| LightAssignment.PartialSort | simulant/render_sequence.cpp:294-313 | partial_sort permutes the lights |
| LightAssignment.PartialSortOrders | simulant/render_sequence.cpp:294-313 | the first k lights are each no later in the order than any light after them |
| LightAssignment.LightsFor | simulant/render_sequence.cpp:283-313 | the list handed to the renderable holds exactly the filtered lights, every one of them, not cut to the maximum |
| LightAssignment.DirectionalFirst | simulant/render_sequence.cpp:303-307 | within the sorted head, no directional light comes after a non-directional one |
| LightAssignment.NearestFirst | simulant/render_sequence.cpp:309-311 | within the sorted head, a non-directional light is no farther than any later light |
| VertexSpecification.AttributeSize | simulant/types.cpp:266-275 | an attribute takes four bytes per float component, 0 exactly for none, at most 16 |
| VertexSpecification.SlotIndex | simulant/types.cpp:306-344 | the eight attribute slots are numbered 0 to 7 |
| VertexSpecification.Sizes | simulant/types.cpp:293-304 | the size of each slot's attribute, one entry per slot |
| VertexSpecification.Stride | simulant/types.cpp:293-304 | the stride is the sum of the eight attribute sizes, at most 128 |
| VertexSpecification.SumOfLayout | simulant/types.cpp:293-304 | the stride is the sum of the eight attribute sizes, named field by field |
| VertexSpecification.Offset | simulant/types.cpp:306-344 | with the check on and the attribute absent, a logic error; otherwise the sum of the sizes of the slots before it |
| VertexSpecification.OffsetIsPrefixSum | simulant/types.cpp:306-344 | the chained offset calls compute the prefix sum of the sizes |
| VertexSpecification.LastSlotEndsAtStride | simulant/types.cpp:293-344 | the specular offset plus its size is the stride |
| VertexSpecification.OffsetsMonotone | simulant/types.cpp:306-344 | a later slot never has a smaller offset |
| VertexSpecification.SlotFitsInStride | simulant/types.cpp:293-344 | every attribute lies inside the vertex |
| VertexSpecification.Next | simulant/types.cpp:306-344 | the slot after a slot other than specular |
| Bytes.LittleEndian | simulant/vertex_data.h:299-307 | an index is stored in exactly the index width's number of bytes |
| Bytes.FromLittleEndian | simulant/vertex_data.h:319-329 | reading a width's bytes gives a value below 256 to that width |
| Bytes.ReadBackStored | simulant/vertex_data.h:319-329 | reading back a stored index gives it modulo 256 to the width |
| Bytes.StoreReadBack | simulant/vertex_data.h:319-329 | storing what was read reproduces the bytes |
| Bytes.FitsRoundTrip | simulant/vertex_data.h:291-329 | an index that fits its width reads back as itself |
| Bytes.StoreTruncated | simulant/vertex_data.h:264-270 | the cast to the narrower type before storing makes no difference to the bytes |
| VertexData.Encoded | simulant/vertex_data.h:258-271 | a list of indices takes the width times its length in bytes |
| VertexData.EntryOfEncoded | simulant/vertex_data.h:319-329 | at(i) on encoded indices reads index i modulo 256 to the width |
| VertexData.EncodedInjective | simulant/vertex_data.h:335-341 | index lists that fit the width are equal exactly when their bytes are |
| VertexData.Truncated | simulant/vertex_data.h:264-270 | the bulk path keeps each index modulo 256 to the width |
| VertexData.AppendStored | simulant/vertex_data.h:264-270 | one more bulk index appends its bytes, and its truncated value to the stored values |
| VertexData.IndexData.constructor | simulant/vertex_data.h:291-311 | a new index buffer is empty |
| VertexData.IndexData.Index | simulant/vertex_data.h:291-311 | the index is refused exactly when it is above 255 for 8-bit or at least 65535 for 16-bit, and then nothing changes; otherwise its bytes are appended, it is stored and the count goes up by one |
| VertexData.IndexData.Push | simulant/vertex_data.h:313-315 | the same as a single index call |
| VertexData.IndexData.IndexMany | simulant/vertex_data.h:258-289 | the first n indices are appended truncated to the width without a range check, and the count goes up by n |
| VertexData.IndexData.At | simulant/vertex_data.h:319-329 | at(i) returns the i-th stored index, which fits the width |
| VertexData.IndexData.Count | simulant/vertex_data.h:331-333 | the count is the number of indices stored |
| VertexData.IndexData.Equals | simulant/vertex_data.h:335-337 | == holds exactly when the two byte buffers are equal, whatever the index types; for one index type that is exactly when the stored indices are equal |
| VertexData.IndexData.NotEquals | simulant/vertex_data.h:339-341 | != holds exactly when the byte buffers differ; for one index type exactly when the stored indices differ |
| VertexData.EqualityIgnoresIndexType | simulant/vertex_data.h:335-337 | == compares bytes only: an 8-bit buffer holding 1, 0 equals a 16-bit buffer holding 1 |
| VertexData.Zeros | simulant/vertex_data.h:169-172 | the fill resize adds: n zero bytes |
| VertexData.VertexData.constructor | simulant/vertex_data.h:148-172 | a new vertex buffer is empty with the given layout |
| VertexData.VertexData.CopyVertexToAnother | simulant/vertex_data.h:148-161 | differing layouts are an error and nothing changes; otherwise the vertex's stride bytes are appended to the output, whose count goes up by one and is returned minus one; the source is unchanged |
| VertexData.VertexData.Resize | simulant/vertex_data.h:169-172 | the buffer holds n vertices; the old bytes are kept and new bytes are zero |
| Adjacency.Canon | simulant/meshes/adjacency_info.cpp:51-53 | the first index seen at a position stands for that position; a new position maps to the vertex itself |
| Adjacency.InsertNew | simulant/meshes/adjacency_info.cpp:55-57 | unordered_map::insert adds a new key and keeps an existing key's value |
| Adjacency.Offer | simulant/meshes/adjacency_info.cpp:55-57 | reference definition, no ensures: the three directed edges of a triangle inserted with their opposite corners (OfferExtends states its effect) |
| Adjacency.CanonValid | simulant/meshes/adjacency_info.cpp:51-53 | the position map stays consistent and the canonical vertex has the same position as the original |
| Adjacency.CanonTriangleValid | simulant/meshes/adjacency_info.cpp:44-53 | the three corners are replaced by canonical vertices at the same positions, and old entries are kept |
| Adjacency.OfferExtends | simulant/meshes/adjacency_info.cpp:55-57 | a triangle adds only its three directed edges, each mapped to the opposite corner, and keeps the edges already present |
| Adjacency.AddTriangle | simulant/meshes/adjacency_info.cpp:44-58 | reference definition, no ensures: one triangle's corners made canonical and its edges offered (AddTriangleValid states what it keeps) |
| Adjacency.ScanTriangles | simulant/meshes/adjacency_info.cpp:44-58 | reference definition, no ensures: AddTriangle over a submesh's triangles in order |
| Adjacency.ScanSubmeshes | simulant/meshes/adjacency_info.cpp:38-59 | reference definition, no ensures: ScanTriangles over every submesh that contributes to the edge list, in order |
| Adjacency.AddTriangleValid | simulant/meshes/adjacency_info.cpp:44-58 | scanning one triangle keeps the scan consistent |
| Adjacency.ScanTrianglesValid | simulant/meshes/adjacency_info.cpp:44-58 | scanning a submesh keeps the scan consistent |
| Adjacency.ScanSubmeshesValid | simulant/meshes/adjacency_info.cpp:38-59 | scanning every contributing submesh leaves a consistent scan |
| Adjacency.MergedByPosition | simulant/meshes/adjacency_info.cpp:38-59 | two edge ends at the same position are the same vertex index |
| Adjacency.FindEdge | simulant/meshes/adjacency_info.cpp:76-82 | find_if returns the first edge record with the given indexes, or none when there is none |
| Adjacency.PairEdge | simulant/meshes/adjacency_info.cpp:67-99 | reference definition, no ensures: one edge of the map added to the records, as the second triangle of its reverse's record or as a new record (PairEdgeRecords, PairShared and PairNew state this) |
| Adjacency.PairEdgeRecords | simulant/meshes/adjacency_info.cpp:67-99 | handling one more edge keeps every record correct for the edges handled so far |
| Adjacency.PairShared | simulant/meshes/adjacency_info.cpp:84-87 | when the reverse edge has a record, that record gains the second triangle and a triangle count of 2 |
| Adjacency.PairNew | simulant/meshes/adjacency_info.cpp:88-98 | otherwise a new record with one triangle is appended |
| Adjacency.KeySet | simulant/meshes/adjacency_info.cpp:67 | the edges handled by the loop |
| Adjacency.PairedRecords | simulant/meshes/adjacency_info.cpp:67-99 | after the loop over distinct edges, every edge is recorded, on its own record or as the second triangle of its reverse's |
| Adjacency.RebuiltEdges | simulant/meshes/adjacency_info.cpp:13-99 | the rebuilt edge list records every directed edge of the mesh |
| Adjacency.AdjacencyInfo.constructor | simulant/meshes/adjacency_info.cpp:8-11 | the mesh is kept and the edge list starts empty |
| Adjacency.AdjacencyInfo.Rebuild | simulant/meshes/adjacency_info.cpp:13-100 | with no mesh nothing changes; otherwise the edges become the pairing of the mesh's edge map in iteration order |
| Adjacency.AdjacencyInfo.ScanMesh | simulant/meshes/adjacency_info.cpp:38-59 | the submesh loop builds the scan ScanSubmeshes describes |
| Adjacency.AdjacencyInfo.ScanTrianglesOf | simulant/meshes/adjacency_info.cpp:44-58 | the triangle loop builds the scan ScanTriangles describes |
| Adjacency.AdjacencyInfo.AddTriangleTo | simulant/meshes/adjacency_info.cpp:46-57 | one triangle's lookups and inserts give AddTriangle |
| Adjacency.AdjacencyInfo.CanonCorner | simulant/meshes/adjacency_info.cpp:51-53 | one corner's lookup gives Canon |
| Adjacency.AdjacencyInfo.InsertEdge | simulant/meshes/adjacency_info.cpp:55-57 | one insert gives InsertNew |
| Adjacency.AdjacencyInfo.EachEdge | simulant/meshes/adjacency_info.cpp:102-107 | the callback gets every edge with its position, in order |
| Pcx.U16At | simulant/loaders/pcx_loader.cpp:35-45 | a 16-bit header field is read little-endian from its two bytes |
| Pcx.HeaderBytes | simulant/loaders/pcx_loader.cpp:29-48 | the packed header is 128 bytes long |
| Pcx.ParseHeader | simulant/loaders/pcx_loader.cpp:29-55 | the header read from the first 128 bytes has its fixed-size arrays |
| Pcx.LoHi | simulant/loaders/pcx_loader.cpp:35-45 | a 16-bit field is its low byte plus 256 times its high byte |
| Pcx.HeaderRoundTrip | simulant/loaders/pcx_loader.cpp:29-48 | writing a header and reading it back gives the header |
| Pcx.HeaderBytesRoundTrip | simulant/loaders/pcx_loader.cpp:29-55 | reading a header and writing it back gives the first 128 bytes |
| Pcx.IsRunByte | simulant/loaders/pcx_loader.cpp:86 | a byte starts a run exactly when its top two bits are set |
| Pcx.RunLength | simulant/loaders/pcx_loader.cpp:87 | a run byte's low six bits are the run length, below 64 |
| Pcx.Step | simulant/loaders/pcx_loader.cpp:83-95 | reference definition, no ensures: one turn of the run-length state machine (RunOfCopies, LiteralPixel and ZeroRunRepeats state its effect) |
| Pcx.Run | simulant/loaders/pcx_loader.cpp:82-102 | decoding k pixels gives 3k bytes, or only an out-of-bounds error |
| Pcx.PaletteStartAsWritten | simulant/loaders/pcx_loader.cpp:73-75 | as written: a buffer shorter than 769 bytes reads the marker out of bounds |
| Pcx.PaletteStart | simulant/loaders/pcx_loader.cpp:73-75 | corrected: the palette is the last 768 bytes when there are at least 769 bytes and the marker is 12, otherwise the header palette |
| Pcx.PaletteStartAgrees | simulant/loaders/pcx_loader.cpp:73-75 | on buffers of at least 769 bytes the two palette rules agree |
| Pcx.DecodeFrom | simulant/loaders/pcx_loader.cpp:52-105 | reference definition, no ensures: the decoder for a given palette rule (Decode and DecodeAsWritten apply it to the corrected and the as-written rule) |
| Pcx.DecodeAsWritten | simulant/loaders/pcx_loader.cpp:52-105 | reference definition, no ensures: the decoder with the palette rule as written (AsWrittenRejectsSmallFiles, DecodeAgreesOnLargeFiles and TinyImageDecodes state what it does) |
| Pcx.Decode | simulant/loaders/pcx_loader.cpp:52-105 | a wrong manufacturer byte is an error; a decoded texture has bitcount 8, width xmax-xmin+1, height ymax-ymin+1, three channels, RGB888 and width*height*3 bytes |
| Pcx.DecodeReadsHeader | simulant/loaders/pcx_loader.cpp:52-71 | the manufacturer error happens exactly when the header's manufacturer is not 0x0A; with a good manufacturer and a non-empty window, the bitcount error happens exactly when bits per pixel times planes is not 8; a decoded texture's size is the header window's |
| Pcx.AfterAdd | simulant/loaders/pcx_loader.cpp:82-95 | decoding n pixels and then m more is decoding n+m |
| Pcx.RunOfCopies | simulant/loaders/pcx_loader.cpp:83-92 | a run byte makes the next byte's value repeat for the run's length |
| Pcx.LiteralPixel | simulant/loaders/pcx_loader.cpp:90-92 | a byte below 0xC0 is one pixel of its own value |
| Pcx.ZeroRunRepeats | simulant/loaders/pcx_loader.cpp:87-95 | a run of length 0 makes the 32-bit counter go negative, so its value repeats for every later pixel |
| Pcx.RunNext | simulant/loaders/pcx_loader.cpp:82-102 | one more loop turn appends that pixel's colour |
| Pcx.RunErrSticks | simulant/loaders/pcx_loader.cpp:82-102 | once a read is out of bounds, decoding more pixels stays an error |
| Pcx.RunPixels | simulant/loaders/pcx_loader.cpp:82-102 | every decoded pixel j holds the palette colour of the j-th value of the run-length stream |
| Pcx.DecodedRun | simulant/loaders/pcx_loader.cpp:83-101 | every pixel of a run in a decoded image holds the colour of the run's value |
| Pcx.DecodedIsRun | simulant/loaders/pcx_loader.cpp:61-104 | a decoded texture's data is the decoding of width*height pixels from byte 128 |
| Pcx.PaletteColours | simulant/loaders/pcx_loader.cpp:73-75 | a trailing palette always holds the colour; with the header palette, a value below 16 reads the header's three bytes |
| Pcx.AsWrittenRejectsSmallFiles | simulant/loaders/pcx_loader.cpp:73 | as written, every well-formed image shorter than 769 bytes fails |
| Pcx.DecodeAgreesOnLargeFiles | simulant/loaders/pcx_loader.cpp:52-105 | on buffers of at least 769 bytes the code as written and the corrected decoder agree |
| Pcx.TinyImage | simulant/loaders/pcx_loader.cpp:29-48 | a one-pixel image file of 129 bytes |
| Pcx.TinyImageBytes | simulant/loaders/pcx_loader.cpp:29-48 | its header fields: manufacturer 0x0A, 8 bits, 1 plane, a 1x1 window, colour 0 = (0, 1, 2) |
| Pcx.TinyImageDecodes | simulant/loaders/pcx_loader.cpp:73-101 | the code as written fails on it while the corrected decoder gives one pixel (0, 1, 2) |
| Pcx.DoLoad | simulant/loaders/pcx_loader.cpp:52-105 | the loader returns exactly what Decode describes |
| Pcx.DecodePixels | simulant/loaders/pcx_loader.cpp:77-102 | the pixel loop gives the bytes Run describes, or the out-of-bounds error |
| Pcx.WriteTexel | simulant/loaders/pcx_loader.cpp:99-101 | the three channel writes put the colour at the index and keep what is before it |
| Pcx.NextValue | simulant/loaders/pcx_loader.cpp:83-95 | one turn of the run-length state machine gives Step |
| Widget.PressedOnFirstFinger | simulant/nodes/ui/widget.cpp:588-594 | fingerdown fires "pressed" exactly when no finger was on the widget |
| Widget.ReleasedOnLastFinger | simulant/nodes/ui/widget.cpp:596-602 | fingerup fires "released" exactly when the finger is the only one on the widget |
| Widget.AfterCall | simulant/nodes/ui/widget.cpp:588-602 | fingerdown adds the finger and fingerup removes it; other fingers, other fields and other widgets are unchanged |
| Widget.CallSignals | simulant/nodes/ui/widget.cpp:588-602 | fingerdown fires pressed on the first finger; fingerup of the last finger fires released then clicked; nothing else |
| Widget.Replay | simulant/nodes/ui/widget.cpp:588-602 | a sequence of finger calls keeps the set of widgets |
| Widget.ReplayAppend | simulant/nodes/ui/widget.cpp:588-602 | finger calls compose: two batches act as the first, then the second |
| Widget.ReplaySignalsAppend | simulant/nodes/ui/widget.cpp:588-602 | the signals of two batches are those of the first followed by those of the second |
| Widget.TapRoundTrip | simulant/nodes/ui/widget.cpp:588-602 | a finger down and up on an untouched widget restores it and fires pressed, released, clicked |
| Widget.Reverse | simulant/nodes/ui/widget.cpp:623-635 | the opposite direction of the focus chain is a different one |
| Widget.WithFocus | simulant/nodes/ui/widget.cpp:637-650 | the widget's focus flag is set as given; other widgets are unchanged |
| Widget.Refocused | simulant/nodes/ui/widget.cpp:684-770 | focus moves from one widget to another; the rest are unchanged |
| Widget.Walk | simulant/nodes/ui/widget.cpp:665-679 | walking the chain away from a widget never visits the widget itself |
| Widget.FirstFocused | simulant/nodes/ui/widget.cpp:665-679 | the first focused widget along a walk, or none when none is focused |
| Widget.FirstFocusedCons | simulant/nodes/ui/widget.cpp:665-679 | the search stops at the first focused widget |
| Widget.FocusedOrThis | simulant/nodes/ui/widget.cpp:664-682 | the result is this widget or a focused widget |
| Widget.ThisWhenNoneFocusedOnWalks | simulant/nodes/ui/widget.cpp:664-682 | the result is this widget exactly when no widget is focused on either walk |
| Widget.FocusedInChain | simulant/nodes/ui/widget.cpp:652-662 | null exactly when the chain search gives this widget and it is not focused; otherwise a focused widget |
| Widget.NoneFocusedGivesThis | simulant/nodes/ui/widget.cpp:652-682 | with nothing focused, the search gives this widget and focused_in_chain gives null |
| Widget.FindsTheFocusedWidget | simulant/nodes/ui/widget.cpp:664-682 | a single focused widget on a walk from this widget is found |
| Widget.ChainEnd | simulant/nodes/ui/widget.cpp:772-788 | first/last_in_focus_chain end at a widget with no further link, inside the table |
| Widget.FocusTarget | simulant/nodes/ui/widget.cpp:694-755 | the next (previous) widget is the focused widget's link, or, at the end of the chain, the opposite end |
| Widget.Linked | simulant/nodes/ui/widget.cpp:623-635 | linking keeps the set of widgets and every field other than the links |
| Widget.LinkedLinks | simulant/nodes/ui/widget.cpp:623-635 | set_focus_next/previous links the widget to the neighbour and the neighbour back to it; no other link changes |
| Widget.LinkedKeepsLinksClosed | simulant/nodes/ui/widget.cpp:623-635 | linking keeps every link pointing at an existing widget |
| Widget.Destroyed | simulant/nodes/ui/widget.cpp:19-27 | the widget is gone and the links into it are cleared; nothing else changes |
| Widget.DestroyedLeavesNoDangling | simulant/nodes/ui/widget.cpp:19-27 | after destruction no link points at the destroyed widget |
| Widget.DestroyedIgnoresFingers | simulant/nodes/ui/widget.cpp:19-56 | the destructor reads only the links, so releasing the widget's fingers in cleanup first leaves the same table |
| Widget.With | simulant/nodes/ui/widget.cpp:87-226 | a setter leaves the look holding the value, and changes nothing when it already did |
| Widget.AfterSetting | simulant/nodes/ui/widget.cpp:87-226 | an equality-guarded setter stores the value and rebuilds the mesh once, only when the value changes and the widget is initialized |
| Widget.SettingIdempotent | simulant/nodes/ui/widget.cpp:87-226 | setting the same value twice is the same as once |
| Widget.AfterImage | simulant/nodes/ui/widget.cpp:148-196 | setting an image stores it and resets the source rectangle to the whole image; the same texture changes nothing |
| Widget.Widgets.constructor | simulant/nodes/ui/widget.cpp:12-17 | no widgets and no signals |
| Widget.Widgets.Create | simulant/nodes/ui/widget.cpp:12-17 | a new widget has no fingers, no focus, no links and is not initialized |
| Widget.Widgets.Init | simulant/nodes/ui/widget.cpp:29-43 | the widget is initialized and its mesh built once |
| Widget.Widgets.FingerDown | simulant/nodes/ui/widget.cpp:588-594 | the widget gains the finger and fires pressed on the first finger |
| Widget.Widgets.FingerEnter | simulant/nodes/ui/widget.cpp:604-606 | the same as fingerdown |
| Widget.Widgets.FingerUp | simulant/nodes/ui/widget.cpp:596-602 | the widget loses the finger and fires released and clicked when it was the last |
| Widget.Widgets.FingerLeave | simulant/nodes/ui/widget.cpp:612-617 | the widget loses the finger and fires released, but not clicked, when it was the last |
| Widget.Widgets.Cleanup | simulant/nodes/ui/widget.cpp:45-56 | every finger is released; released and clicked fire once if any finger was down |
| Widget.Widgets.Blur | simulant/nodes/ui/widget.cpp:790-793 | the widget loses focus and fires blurred |
| Widget.Widgets.FindFocusedAlong | simulant/nodes/ui/widget.cpp:665-679 | the loop along the links finds FirstFocused of the walk |
| Widget.Widgets.FocusedInChainOrThis | simulant/nodes/ui/widget.cpp:664-682 | the two loops give FocusedOrThis |
| Widget.Widgets.EndOfChain | simulant/nodes/ui/widget.cpp:772-788 | the loop gives ChainEnd |
| Widget.Widgets.Focus | simulant/nodes/ui/widget.cpp:637-650 | the focused widget in the chain is blurred, this widget is focused, and focused fires unless it already was |
| Widget.Widgets.FindTarget | simulant/nodes/ui/widget.cpp:694-704 | the focused widget and the widget to focus, as FocusTarget gives |
| Widget.Widgets.FocusInChain | simulant/nodes/ui/widget.cpp:684-770 | both focus-change flags together are an error that changes nothing; otherwise focus moves to the next (previous) widget, wrapping round the chain |
| Widget.Widgets.SetFocusLink | simulant/nodes/ui/widget.cpp:623-635 | the links become Linked and stay well formed |
| Widget.Widgets.Destroy | simulant/nodes/ui/widget.cpp:19-27 | the widget leaves the table, with no link to it remaining |
| Widget.Widgets.Rebuild | simulant/nodes/ui/widget.cpp:79-85 | the mesh is rebuilt only when the widget is initialized |
| Widget.Widgets.SetLook | simulant/nodes/ui/widget.cpp:69-226 | the widget becomes AfterSetting of the value |
| Widget.Widgets.SetImage | simulant/nodes/ui/widget.cpp:148-196 | the widget becomes AfterImage of the texture |
| Widget.Widgets.Click | simulant/nodes/ui/widget.cpp:795-797 | clicked fires and nothing else changes |
| UIManager.LastHit | simulant/nodes/ui/ui_manager.cpp:143-161 | none exactly when no widget contains the point; otherwise a visited widget that contains it |
| UIManager.LastHitIsLast | simulant/nodes/ui/ui_manager.cpp:146-158 | when several widgets contain the point, the one found is the last visited |
| UIManager.DispatchOf | simulant/nodes/ui/ui_manager.cpp:122-135 | at most one call per event, to a widget under the touch, with the touch's finger |
| UIManager.DispatchOfCases | simulant/nodes/ui/ui_manager.cpp:124-131 | a miss or a finger-move makes no call; otherwise fingerdown for finger-down and fingerup for finger-up |
| UIManager.Dispatched | simulant/nodes/ui/ui_manager.cpp:115-137 | a queue leads to at most one widget call per event |
| UIManager.DispatchedAppend | simulant/nodes/ui/ui_manager.cpp:115-137 | the queue is processed event by event, in arrival order |
| UIManager.TapOnWidget | simulant/nodes/ui/ui_manager.cpp:115-137 | a finger-down and finger-up at one point over an untouched widget make it fire pressed, released and clicked, and leave it as it was |
| UIManager.UIManager.constructor | simulant/nodes/ui/ui_manager.cpp:27-45 | the queue starts empty |
| UIManager.UIManager.QueueEvent | simulant/nodes/ui/ui_manager.cpp:110-113 | the event is queued at the back |
| UIManager.UIManager.OnTouchBegin | simulant/nodes/ui/ui_manager.cpp:102-104 | the touch is queued at the back |
| UIManager.UIManager.OnTouchEnd | simulant/nodes/ui/ui_manager.cpp:106-108 | the touch is queued at the back |
| UIManager.UIManager.ClearEventQueue | simulant/nodes/ui/ui_manager.cpp:139-141 | the queue becomes empty |
| UIManager.UIManager.FindWidgetAtWindowCoordinate | simulant/nodes/ui/ui_manager.cpp:143-161 | the loop gives LastHit |
| UIManager.UIManager.DispatchEvent | simulant/nodes/ui/ui_manager.cpp:119-131 | the widgets change and signal as the event's DispatchOf calls say |
| UIManager.UIManager.ProcessEventQueue | simulant/nodes/ui/ui_manager.cpp:115-137 | every queued event, oldest first, reaches the widget it hits; the queue itself is unchanged |
| UIManager.UIManager.DeleteWidget | simulant/nodes/ui/ui_manager.cpp:94-100 | the null id changes nothing; otherwise the widget's cleanup releases its fingers, firing released and clicked once when any finger was down, and the widget is then destroyed with no link to it left |
| Batcher.KeysOf | kglt/renderers/gl2x/batcher.cpp:192-259 | the keys from the root to a group end with the group's own key |
| Batcher.PositionOf | kglt/renderers/gl2x/batcher.cpp:46-88 | the light position uniform has w = 0 exactly for a directional light and w = 1 otherwise |
| Batcher.GenerateLightGroupData | kglt/renderers/gl2x/batcher.cpp:46-88 | the group is for the light, and a position it sets has w = 0 exactly for a directional light |
| Batcher.GenerateMaterialGroupData | kglt/renderers/gl2x/batcher.cpp:90-124 | reference definition, no ensures: the material uniforms the program uses, with the pass's values (MaterialGroupSetsUsedUniforms states the bind) |
| Batcher.LightBind | kglt/renderers/gl2x/batcher.cpp:273-305 | reference definition, no ensures: the uniform calls of a light group's bind (LightGroupSetsUsedUniforms states them) |
| Batcher.MaterialBind | kglt/renderers/gl2x/batcher.cpp:431-455 | reference definition, no ensures: the uniform calls of a material group's bind (MaterialGroupSetsUsedUniforms states them) |
| Batcher.LightGroupSetsUsedUniforms | kglt/renderers/gl2x/batcher.cpp:46-88 | building a light group and binding it sets exactly the light uniforms the program uses, in order, to the light's values |
| Batcher.MaterialGroupSetsUsedUniforms | kglt/renderers/gl2x/batcher.cpp:90-124 | building a material group and binding it sets exactly the material uniforms the program uses, in order, to the pass's values |
| Batcher.SetUsed | kglt/renderers/gl2x/batcher.cpp:46-124 | at most one uniform call per uniform considered |
| Batcher.ApplyAppend | kglt/renderers/gl2x/batcher.cpp:383-521 | GL calls made one list after another act as the two lists in turn |
| Batcher.BlendBind | kglt/renderers/gl2x/batcher.cpp:461-481 | an unknown blend type throws; none makes no call; any other type enables blending first |
| Batcher.BlendUnbind | kglt/renderers/gl2x/batcher.cpp:483-487 | reference definition, no ensures: disable blending unless the type is none (BlendBindThenUnbind states the effect) |
| Batcher.BlendBindThenUnbind | kglt/renderers/gl2x/batcher.cpp:461-487 | a known type turns blending on with its blend function, none changes nothing; after unbind blending is off (or as it was for none) and depth and render settings are untouched |
| Batcher.BlendFactorsDistinct | kglt/renderers/gl2x/batcher.cpp:466-478 | different blend types set different blend functions |
| Batcher.InvalidBlendLeavesBlendingOn | kglt/renderers/gl2x/batcher.cpp:461-481 | an unknown blend type throws after blending has been enabled |
| Batcher.DepthBind | kglt/renderers/gl2x/batcher.cpp:383-395 | binding makes two calls, the test and the mask |
| Batcher.DepthUnbind | kglt/renderers/gl2x/batcher.cpp:397-401 | unbind makes a call exactly when the group enabled the depth test |
| Batcher.DepthBindThenUnbind | kglt/renderers/gl2x/batcher.cpp:383-401 | bind sets the depth test and mask to the group's; after unbind the test is off and the mask kept |
| Batcher.RenderSettingsBind | kglt/renderers/gl2x/batcher.cpp:489-513 | the point size is set first; an unknown polygon mode throws after it |
| Batcher.RenderSettingsUnbind | kglt/renderers/gl2x/batcher.cpp:515-521 | reference definition, no ensures: point size 1 and filled polygons (RenderSettingsBindThenUnbind states the effect) |
| Batcher.RenderSettingsBindThenUnbind | kglt/renderers/gl2x/batcher.cpp:489-521 | bind sets the point size and polygon mode; unbind restores size 1 and filled polygons; nothing else changes |
| Batcher.PolygonModesDistinct | kglt/renderers/gl2x/batcher.cpp:489-513 | the three known polygon modes reach GL as three different modes |
| Batcher.TextureMatrixAuto | kglt/renderers/gl2x/batcher.cpp:175-184 | matrices 0 to 3 have their auto uniforms; any other index throws |
| Batcher.AttributeMap | kglt/renderers/gl2x/batcher.cpp:206-215 | every entry is a used, available attribute under its own variable name |
| Batcher.AttributeMapCovers | kglt/renderers/gl2x/batcher.cpp:206-215 | every used available attribute's name is in the map |
| Batcher.SameTexturesSameKey | kglt/renderers/gl2x/batcher.cpp:220-226 | passes whose units name the same GL textures share a texture group |
| Batcher.GroupPath | kglt/renderers/gl2x/batcher.cpp:195-259 | reference definition, no ensures: the ten group keys insert walks, or the texture-matrix throw (GroupPathLevels states it) |
| Batcher.GroupPathLevels | kglt/renderers/gl2x/batcher.cpp:195-259 | insert fails exactly when a fifth matrix slot and a fifth unit exist; otherwise the path has ten levels in the fixed order shader, global, attributes, textures, texture matrices, depth, material, blend, render settings, staged uniforms |
| Batcher.LeadingLevels | kglt/renderers/gl2x/batcher.cpp:195-226 | the first four levels are shader, global, attributes and textures |
| Batcher.TrailingLevels | kglt/renderers/gl2x/batcher.cpp:228-259 | the last six levels follow the texture group in order |
| Batcher.LeafKey | kglt/renderers/gl2x/batcher.cpp:135-138 | the leaf is an instanced-mesh group keyed by mesh and submesh exactly when the mesh id is non-zero, otherwise the renderable group |
| Batcher.IterationCount | kglt/renderers/gl2x/batcher.cpp:133-152 | reference definition, no ensures: max_iterations for ITERATE_N, one for ONCE, and the number of lights capped at max_iterations for once-per-light (LeafPaths states one leaf per count) |
| Batcher.LeafPaths | kglt/renderers/gl2x/batcher.cpp:140-171 | one leaf per addition, as many as the iteration policy says |
| Batcher.LeafPathsByPolicy | kglt/renderers/gl2x/batcher.cpp:140-171 | ITERATE_N and ONCE use the one leaf below the group path; once-per-light puts copy i below the i-th light's group |
| Batcher.Repeat | kglt/renderers/gl2x/batcher.cpp:140-150 | k copies of an entry |
| Batcher.Occurrences | kglt/renderers/gl2x/batcher.cpp:140-171 | a group is absent from the leaves exactly when it occurs zero times |
| Batcher.AddedAtCounts | kglt/renderers/gl2x/batcher.cpp:140-171 | each group gains one copy of the entry per time it is a leaf |
| Batcher.IterateNFillsOneLeaf | kglt/renderers/gl2x/batcher.cpp:140-150 | under ITERATE_N the one leaf gains max_iterations copies and no other group changes |
| Batcher.RenderTree.constructor | kglt/renderers/gl2x/batcher.cpp:174-262 | the tree starts with no groups and no entries |
| Batcher.RenderTree.GetOrCreate | kglt/renderers/gl2x/batcher.cpp:195-259 | the child with the key exists afterwards; no other group is made |
| Batcher.RenderTree.Add | kglt/renderers/gl2x/batcher.cpp:146-169 | the entry is appended to the group and no other group changes |
| Batcher.RenderTree.AddCopy | kglt/renderers/gl2x/batcher.cpp:145-169 | one copy goes to the leaf, below the light group when there is one |
| Batcher.RenderTree.GenerateMeshGroups | kglt/renderers/gl2x/batcher.cpp:126-172 | the groups on the way to LeafPaths are made and each leaf gains its copies |
| Batcher.RenderTree.AutoAttributes | kglt/renderers/gl2x/batcher.cpp:206-215 | the loop builds AttributeMap |
| Batcher.RenderTree.TextureUnitsOf | kglt/renderers/gl2x/batcher.cpp:220-224 | slot tu holds unit tu's GL texture for every unit and 0 elsewhere |
| Batcher.RenderTree.TextureMatricesOf | kglt/renderers/gl2x/batcher.cpp:228-240 | the loop gives TextureMatrices, including its throw |
| Batcher.RenderTree.AddLeadingGroups | kglt/renderers/gl2x/batcher.cpp:195-226 | the first four levels exist afterwards |
| Batcher.RenderTree.AddTrailingGroups | kglt/renderers/gl2x/batcher.cpp:228-259 | the last six levels exist afterwards |
| Batcher.RenderTree.Insert | kglt/renderers/gl2x/batcher.cpp:174-262 | an invisible renderable changes nothing; a throw leaves only the first four levels and adds no entry; otherwise the ten levels exist and generate_mesh_groups files the entry |

## Left out

- Floating point is modelled as `real`. NaN, signed zero and rounding are not modelled, so two equal positions are always one vertex in adjacency.
- Geometry is a parameter: frustum, box and sphere tests, squared distance, camera projection, widget hit tests and edge normals.
- Iteration orders are parameters. This covers the unordered_map edge loop in adjacency, the widget manager's visiting order and std::map iteration over pipelines. std::set iteration is modelled as ascending.
- Locks, the profiler, the stats window other than the two counts, and signal wiring are not modelled. Signals and clears are an event log.
- The maximum lights per renderable, the number of texture units and the number of texture matrices are parameters. Their values are not part of this model.
- Batcher.RenderTree.Insert: a pass with more texture units than MAX_TEXTURE_UNITS is excluded, and so it is for AddLeadingGroups and TextureUnitsOf. The code writes `units[tu]` for every unit of the pass into a vector of MAX_TEXTURE_UNITS entries (kglt/renderers/gl2x/batcher.cpp:220-224), so such a pass writes past the vector, which is undefined behaviour.
- RenderSequence.RenderSequence.RunPipeline: the render target is always the window, because the code renders to `*window_` whatever the pipeline's target.
- LightAssignment.LightsFor: simulant/render_sequence.cpp:294-313 partially sorts only the first MAX_LIGHTS_PER_RENDERABLE lights, but line 322 hands the renderable the whole filtered list, so a renderable can be given more lights than that maximum. The model follows the code.
- LightAssignment.PartialSortOrders: the order of the lights after the first k is left unspecified, as std::partial_sort leaves it.
- RenderSequence.RenderStage: the stage's partitioner is queried through the scene's `query`, which the model requires to be the null partitioner's lights_and_geometry_visible_from; other partitioners are not part of this model.
- RenderSequence: activate_pipelines, deactivate_all_pipelines and delete_all_pipelines are not modelled. They are loops over activate and deactivate, which are modelled.
- Batcher: the GL binds of the shader, global, auto-attribute, texture, texture-matrix and staged-uniform groups are not modelled. Nor are the bodies of get_or_create, add and traverse, which the code does not show: get_or_create makes the child group, add appends the entry to the group's list (so the copies of IterateNFillsOneLeaf are all kept) and traverse is left out.
- Batcher.RenderSettingsBind: the Android branch, which skips the polygon mode, is not modelled.
- Batcher.RenderTree.GenerateMeshGroups: the ITERATE_N loop counter has the same 8-bit type as max_iterations, so it never wraps. The count is an unbounded `nat`.
- Pcx.Decode:
  - A read past the buffer, undefined in C++, is an out-of-bounds error.
  - A width or height that is not positive is an error. texture_loader.h, where the result is used, is not part of this model.
  - Overflow of the 32-bit size product and running out of memory are not modelled.
  - The model reports a non-positive size before the bitcount check. The code resizes the pixel buffer first and then throws "Unsupported PCX bitcount" (simulant/loaders/pcx_loader.cpp:61-70), so a file with an empty window and a bad bitcount fails with a different error in the model.
- Pcx.DoLoad uses the corrected palette rule; Pcx.DecodeAsWritten keeps the code as written.
- Widget.Walk carries a fuel bound equal to the number of widgets. Callers must show that the walk ends, so a cyclic focus chain is outside the model. This is not reported as a defect. focus_next_in_chain and focus_previous_in_chain wrap round by calling first_in_focus_chain and last_in_focus_chain (simulant/nodes/ui/widget.cpp:694-755), which presupposes a chain with two ends. On a cyclic chain, built for example by linking a to b, b to c and c to a with set_focus_next, those two loops (widget.cpp:772-788) would not end.
- Widget: fingermove is a no-op and is not modelled. Nor are is_pressed_by_finger, render_text, construct_widget, set_font, set_padding, set_resize_mode and set_property.
- Widget.Widgets.FocusInChain: ChangeFocusBehaviour is two booleans. The branch where nothing is focused cannot be reached, because focused_in_chain_or_this never returns null.
- UIManager.UIManager.DeleteWidget: manager_->destroy is not part of this model. The model takes destruction to run Widget::cleanup (simulant/nodes/ui/widget.cpp:45-56), whose comment says it fires the outstanding events when the widget is destroyed, and then the destructor.
- UIManager: on_touch_move is not handled in the source. new_widget_as_* are not modelled. Widget id 0 is the null id.
- Overlay: the interface, update and render wrappers over libRocket are not modelled.
- Light: set_attenuation and the bounding box are not modelled.
- Light.Light.AbsolutePosition: a light's parent is a translation only: absolute_position() is the parent's position plus the light's own. Parent rotation and scale, and the scene graph that supplies the parent, are not modelled.
- Bytes.LittleEndian: the source stores indices in the host's native byte order. The model fixes little-endian, the order of the machines the engine targets; a big-endian host is not modelled.
- Renderable: the pure virtual getters are fields fixed at construction.
- VertexData: only index storage, copy_vertex_to_another and resize are modelled. The other members are typed accessors over the same bytes.
- RenderSequence.RenderSequence.GenerateFrameId: the function-static counter is a field of the sequence, and its `uint64_t` type is an unbounded `nat`, so the wrap after 2^64 frames is not modelled.

## Findings

| source | as written | input that shows it | evidently intended | confidence | as-written member | corrected member |
|---|---|---|---|---|---|---|
| simulant/event_listener.cpp:17-25 | handle_touch_end builds a FINGER_UP event and passes it to on_touch_begin | any touch end | pass it to on_touch_end | high; not executed | EventListener.HandleTouchEndAsWritten, EventListener.TouchEndAsWrittenMisroutes | EventListener.HandleTouchEnd |
| simulant/loaders/pcx_loader.cpp:73-75 | the palette marker is read at buffer.size() - 769 even when the buffer is shorter, which underflows and reads out of bounds | the 129-byte one-pixel image Pcx.TinyImage | use the header palette when there is no room for a trailing palette | high; not executed | Pcx.DecodeAsWritten, Pcx.PaletteStartAsWritten, Pcx.TinyImageDecodes, Pcx.AsWrittenRejectsSmallFiles | Pcx.Decode, Pcx.PaletteStart, Pcx.DecodeAgreesOnLargeFiles |
