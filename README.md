# DX11Starter core, modelled in Dafny

The model covers the three core files of a small Direct3D 11 starter game:

- **Meshes** (`DX11Starter/Mesh.cpp`).
  - A mesh owns one vertex buffer and one index buffer, plus an index count.
  - Buffer handles are COM objects. The only state the core changes on them is their reference count, kept here as a ghost counter on the `Buffer` class.
  - The mesh's copy constructor and assignment take one reference to each handle, and so does each buffer getter. The destructor releases each handle once.
  - A buffer description records the usage, the byte width and the bind flag. The byte width is cut to 32 bits, as `D3D11_BUFFER_DESC::ByteWidth` is.
- **Entities** (`DX11Starter/Entity.cpp`).
  - An entity holds a mesh pointer, a position, a rotation, a scale and a cached world matrix.
  - `EntityState` is the value of those five fields. Pure functions over it specify the class methods: `Spawned`, `Refreshed`, `Moved`, `MovedForward` and `MovedForwardAll`.
- **The frame driver** (`DX11Starter/Game.cpp`).
  - `CreateBasicGeometry` builds three meshes and six entities.
  - `Update` applies the motion rules:
    - the held keys move entity 0;
    - entities 1, 4 and 5 spin;
    - entities 2 and 3 pulse;
    - every entity then recomputes its world matrix.
  - `Draw` issues an ordered list of device calls, recorded as a trace of `Event` values.
  - The destructor deletes every mesh.
  - The pure specifications of `Update` and `Draw` are in module `FrameSpec`.

DirectXMath is not modelled. `MathLib` is a record of function values, and it is passed in wherever the source calls the library. Vectors and matrices hold `real`s. The D3D11 device comes in as a `Device` value that says which buffer descriptions `CreateBuffer` accepts. The keyboard state comes in as the set of held keys. The view and projection matrices are what the camera would return, passed to `Draw` as parameters.

The sequence of calls a frame issues is fixed: the two clears, the view and projection uploads, the shader binds, five calls per entity, then `Present`. The model proves that a frame has:

- one `Present`, one clear of each target and one upload each of the view and projection matrices, whatever the number of entities;
- one world upload and one `DrawIndexed` per entity.

Buffer references grow over time. Every `Draw` takes one reference to each buffer of each entity's mesh, through `GetVertexBuffer` and `GetIndexBuffer`, and never releases it. The invariant `Game.Valid` states the exact count: 1 + frames × uses. `Game.Destroy` proves that frames × uses references stay outstanding after the destructor.

The destructor also runs on a scene whose device refused some buffers: it releases each handle that is not null once and skips the null ones, as `~Mesh` does. The methods `Start`, `PlayOneFrame` and `StartAndQuit` chain the constructor, Init, Update, Draw and the destructor on a new game, so the contracts of those operations compose.

## Model

| member | source | states |
|---|---|---|
| Meshes.VertexBufferDesc | DX11Starter/Mesh.cpp:8-14 | immutable vertex-buffer description whose width is 32 bytes per vertex while that byte width fits in 32 bits (fewer than 2^27 vertices) |
| Meshes.IndexBufferDesc | DX11Starter/Mesh.cpp:29-35 | immutable index-buffer description whose width is 4 bytes per index while that byte width fits in 32 bits (fewer than 2^30 indices) |
| Meshes.VertexWidthWraps | DX11Starter/Mesh.cpp:10 | a vertex count of 2^27 wraps the UINT byte width to 0 |
| Meshes.Buffer.AddRef | DX11Starter/Mesh.cpp:53 | COM AddRef on a live buffer raises its count by one |
| Meshes.Buffer.Release | DX11Starter/Mesh.cpp:76 | COM Release on a live buffer lowers its count by one |
| Meshes.Mesh.constructor | DX11Starter/Mesh.cpp:3-48 | each handle is non-null exactly when the device accepts its description; a created buffer is fresh, carries that description and holds one reference; the index count is stored |
| Meshes.Mesh.Copy | DX11Starter/Mesh.cpp:50-57 | shares both handles and the count, and adds one reference to each handle |
| Meshes.Mesh.Assign | DX11Starter/Mesh.cpp:59-71 | self-assignment changes nothing; otherwise adopts the other mesh's handles and count with one more reference each, and releases none of the handles held before |
| Meshes.Mesh.Destroy | DX11Starter/Mesh.cpp:73-78 | each non-null handle loses exactly one reference |
| Meshes.Mesh.GetVertexBuffer | DX11Starter/Mesh.cpp:80-84 | returns the vertex buffer with one more reference; the index buffer's count is unchanged |
| Meshes.Mesh.GetIndexBuffer | DX11Starter/Mesh.cpp:86-90 | returns the index buffer with one more reference; the vertex buffer's count is unchanged |
| Meshes.Mesh.GetIndexCount | DX11Starter/Mesh.cpp:92-95 | returns the stored count and takes no reference |
| Entities.Entity.constructor | DX11Starter/Entity.cpp:6-16 | the new entity is at the origin, unrotated, at unit scale, with the identity matrix, bound to the given mesh |
| Entities.Spawned | DX11Starter/Entity.cpp:6-16 | the state the constructor sets: the given mesh, zero position and rotation, unit scale, the identity matrix |
| Entities.WorldOf | DX11Starter/Entity.cpp:48-51 | the world matrix of a pose: translation × roll-pitch-yaw rotation × scaling, through the math library |
| Entities.Refreshed | DX11Starter/Entity.cpp:45-52 | Update on a state: the world matrix becomes WorldOf of the pose, the rest is kept |
| Entities.Moved | DX11Starter/Entity.cpp:104-109 | Move on a state: the velocity turned by the direction angles is added to the position |
| Entities.MovedForward | DX11Starter/Entity.cpp:111-116 | MoveForward on a state: the velocity turned by the entity's own rotation is added to the position |
| Entities.MovedForwardAll | DX11Starter/Entity.cpp:111-116 | a run of MoveForward calls, applied in the order given |
| Entities.SpawnedAtOrigin | DX11Starter/Entity.cpp:12-15 | a new entity's world matrix leaves every mesh point in place |
| Entities.Entity.Copy | DX11Starter/Entity.cpp:18-25 | the copy has all five fields of the original |
| Entities.Entity.Assign | DX11Starter/Entity.cpp:27-39 | afterwards all five fields equal those of the other entity, self-assignment included |
| Entities.Entity.Update | DX11Starter/Entity.cpp:45-52 | only the world matrix changes, to translation × rotation × scaling of the current pose |
| Entities.RefreshedInSync | DX11Starter/Entity.cpp:45-52 | after Update the cache agrees with the pose; a second Update changes nothing; Update is a no-op exactly when the cache is already in sync |
| Entities.Entity.GetWorldMatrix | DX11Starter/Entity.cpp:54-57 | returns the cached matrix |
| Entities.Entity.GetPosition | DX11Starter/Entity.cpp:59-62 | returns the position |
| Entities.Entity.GetRotation | DX11Starter/Entity.cpp:64-67 | returns the rotation |
| Entities.Entity.GetScale | DX11Starter/Entity.cpp:69-72 | returns the scale |
| Entities.Entity.GetMesh | DX11Starter/Entity.cpp:74-77 | returns the mesh pointer |
| Entities.Entity.SetWorldMatrix | DX11Starter/Entity.cpp:79-82 | replaces the cached matrix and nothing else |
| Entities.Entity.SetPosition | DX11Starter/Entity.cpp:84-87 | replaces the position and nothing else |
| Entities.Entity.SetRotation | DX11Starter/Entity.cpp:89-92 | replaces the rotation and nothing else |
| Entities.Entity.SetScale | DX11Starter/Entity.cpp:94-97 | replaces the scale and nothing else |
| Entities.Entity.SetMesh | DX11Starter/Entity.cpp:99-102 | replaces the mesh pointer and nothing else |
| Entities.SettersLeaveMatrixStale | DX11Starter/Entity.cpp:84-97 | after a pose setter the cache is in sync exactly when the old matrix happens to be the new pose's matrix |
| Entities.Entity.Move | DX11Starter/Entity.cpp:104-109 | position += velocity turned by the direction angles; nothing else changes |
| Entities.MoveReadsOnlyPosition | DX11Starter/Entity.cpp:104-109 | Move depends only on the position and changes only the position |
| Entities.Entity.MoveForward | DX11Starter/Entity.cpp:111-116 | position += velocity turned by the entity's own rotation; nothing else changes |
| Entities.MoveForwardIsMoveAlongRotation | DX11Starter/Entity.cpp:104-116 | MoveForward equals Move with the entity's rotation as the direction |
| Entities.MoveForwardUnrotated | DX11Starter/Entity.cpp:111-116 | with zero rotation, and a library whose zero rotation fixes v, MoveForward adds exactly v |
| Entities.MovedForwardAllSum | DX11Starter/Entity.cpp:111-116 | a run of MoveForward calls changes only the position, by the sum of the turned velocities |
| Entities.MovedForwardAllUnrotated | DX11Starter/Entity.cpp:111-116 | unrotated, a run of MoveForward calls adds exactly the sum of the velocities |
| Entities.MovedForwardAllAppend | DX11Starter/Entity.cpp:111-116 | two runs of MoveForward in a row are one run of both |
| Entities.MovedForwardAllSnoc | DX11Starter/Entity.cpp:111-116 | one more velocity is one more MoveForward |
| Entities.Entity.GetIdentityMatrix | DX11Starter/Entity.cpp:118-123 | the identity matrix fixes every point and is its own transpose |
| DXMath.IdentityFixesPoints | DX11Starter/Entity.cpp:118-123 | transforming a point by the identity leaves it in place |
| DXMath.TransposeInvolution | DX11Starter/Game.cpp:311 | transposing the world matrix twice gives it back |
| DXMath.TransposeInjective | DX11Starter/Game.cpp:311 | distinct world matrices upload as distinct transposes |
| DXMath.Lerp | DX11Starter/Game.cpp:254 | XMVectorLerp gives `a` at t = 0 and `b` at t = 1 |
| DXMath.SumAppend | DX11Starter/Game.cpp:201-229 | the sum of two runs of velocities is the sum of their sums |
| Games.Game.constructor | DX11Starter/Game.cpp:15-37 | empty mesh and entity collections, an empty trace, no frames drawn, a valid scene and nothing to release |
| Games.Game.Destroy | DX11Starter/Game.cpp:44-58 | every non-null handle of every mesh loses exactly one reference, also when the device refused some buffers; in a valid scene each buffer keeps exactly frames-drawn × uses references: Draw's references are never released |
| Games.DeleteMeshes | DX11Starter/Game.cpp:55-57 | deleting the meshes in order releases every non-null handle of every mesh exactly once |
| Games.DeleteMesh | DX11Starter/Game.cpp:56 | deleting one mesh releases each of its non-null handles once and touches no other mesh's buffer |
| Games.Game.Init | DX11Starter/Game.cpp:64-76 | the scene of CreateBasicGeometry, with every new mesh, entity and buffer fresh and every new buffer holding one reference, then one IASetPrimitiveTopology(TriangleList) call in the trace |
| Games.Game.CreateBasicGeometry | DX11Starter/Game.cpp:97-170 | appends three fresh meshes with 3/3, 4/6 and 4/6 vertices/indices and six fresh entities spawned on meshes 0, 0, 1, 2, 1, 2 of the collection; each new buffer is fresh with one reference; the scene stays valid when the device accepts every buffer, and stays releasable by the destructor whatever the device refuses |
| Games.NewMesh | DX11Starter/Game.cpp:127 | one `new Mesh` of the scene's k-th counts: a fresh mesh whose non-null buffers are fresh with one reference each |
| Games.NewMeshes | DX11Starter/Game.cpp:109-161 | three distinct fresh meshes built with the scene's counts; their fresh buffers hold one reference each; no two meshes share a non-null handle; when the device accepts all six buffers, no two handles alias |
| Games.SceneMeshes | DX11Starter/Game.cpp:109-161 | three well-formed meshes with apart handles are separate, and own six distinct buffers when the device accepts every buffer |
| Games.NewEntities | DX11Starter/Game.cpp:164-169 | six distinct fresh entities, entity i spawned on mesh SceneBindings[i] |
| Games.NewScene | DX11Starter/Game.cpp:97-170 | the grown collections stay distinct and every entity is bound to one of their meshes; the new buffers are fresh with one reference; before any frame, a live scene stays live; meshes the destructor can release stay releasable |
| FrameSpec.SceneShape | DX11Starter/Game.cpp:120-158 | index counts 3, 6 and 6; no buffer width wraps; vertex widths 96 and 128 bytes, index widths 12 and 24 bytes |
| FrameSpec.SceneUses | DX11Starter/Game.cpp:164-169 | every mesh of the scene is bound to exactly two entities |
| Games.Game.Update | DX11Starter/Game.cpp:189-266 | the entity states become FrameUpdate of the old ones; the bindings are unchanged, so validity is preserved |
| Games.MoveIfHeld | DX11Starter/Game.cpp:201-204 | a key's MoveForward happens exactly when the key is held |
| Games.MovePlayer | DX11Starter/Game.cpp:196-230 | entity 0 makes the MoveForward calls of KeyVelocities, in the order the keys are checked |
| FrameSpec.KeyVelocitiesInOrder | DX11Starter/Game.cpp:199-229 | the six key tests with speed 5 give KeyVelocities |
| FrameSpec.KeyVelocitiesCount | DX11Starter/Game.cpp:201-229 | one MoveForward per held key |
| FrameSpec.KeyVelocitiesSum | DX11Starter/Game.cpp:199-229 | the velocities add up to speed × deltaTime times (L−J, I−K, O−U): opposite keys cancel |
| FrameSpec.KeyStepsSum | DX11Starter/Game.cpp:201-229 | the same sum for any step length |
| Games.ApplyMotion | DX11Starter/Game.cpp:195-256 | the entity states become Posed of the old ones |
| FrameSpec.PosedAsUpdates | DX11Starter/Game.cpp:195-256 | Posed is the source's writes to entities 0, 1, 4, 5, 2 and 3, in order, with all other entities unchanged |
| Games.SetRotationOf | DX11Starter/Game.cpp:235-237 | one entity's rotation changes; every other entity is untouched |
| Games.SetScaleOf | DX11Starter/Game.cpp:255-256 | one entity's scale changes; every other entity is untouched |
| FrameSpec.TruncateToLong | DX11Starter/Game.cpp:241-247 | `(long)totalTime` truncates toward zero: the whole part lies within one below a non-negative time and within one above a negative one |
| FrameSpec.TruncatedRemainder | DX11Starter/Game.cpp:241 | C++ `%`: the remainder carries the dividend's sign, is smaller than the divisor in magnitude, and completes the truncating quotient to the dividend |
| FrameSpec.PulseRate | DX11Starter/Game.cpp:240-248 | the LERP rate: the fraction of the second when the whole seconds are even, one minus it when they are odd |
| FrameSpec.PulseScale | DX11Starter/Game.cpp:251-254 | the scale lerped from 0.75 to 1.25 on every axis at the pulse rate |
| FrameSpec.KeyStep | DX11Starter/Game.cpp:201-229 | one key test: a MoveForward by the given step when the key is held, none otherwise |
| FrameSpec.AxisSteps | DX11Starter/Game.cpp:201-229 | the tests of a pair of opposite keys, positive first |
| FrameSpec.KeySteps | DX11Starter/Game.cpp:201-229 | the six key tests in the source's order I, K, L, J, O, U, along y, x and z |
| FrameSpec.KeyVelocities | DX11Starter/Game.cpp:199-229 | the key tests with the step speed 5 × deltaTime |
| FrameSpec.Spun | DX11Starter/Game.cpp:233-234 | entity 1's rotation with z advanced by 1 × deltaTime |
| FrameSpec.PoseRule | DX11Starter/Game.cpp:195-256 | entity 0 moves by the key velocities, entities 1, 4 and 5 take the spun rotation, entities 2 and 3 the pulse scale, others keep their pose |
| FrameSpec.Posed | DX11Starter/Game.cpp:195-256 | PoseRule applied to every entity of the frame's starting states |
| FrameSpec.RefreshedAll | DX11Starter/Game.cpp:262-265 | Refreshed applied to every entity |
| FrameSpec.FrameUpdate | DX11Starter/Game.cpp:195-265 | the states after Update: Posed, then every world matrix refreshed |
| FrameSpec.PulseRateTriangle | DX11Starter/Game.cpp:240-248 | from time zero on, the rate is the fraction of the second counted up in even seconds and down in odd ones, within [0, 1] |
| FrameSpec.PulseRatePeriodic | DX11Starter/Game.cpp:240-248 | the rate repeats every two seconds |
| FrameSpec.PulseRateAtHalf | DX11Starter/Game.cpp:240-248 | the rate at 0.5 s is 0.5 |
| FrameSpec.PulseRateNegativeTime | DX11Starter/Game.cpp:241-247 | before time zero, the truncating cast and remainder give −0.5 at −0.5 s, outside [0, 1] |
| FrameSpec.PulseScaleBounds | DX11Starter/Game.cpp:251-254 | from time zero on, the pulse scale is uniform, equal to 0.75 + 0.5 × rate, and within [0.75, 1.25] |
| FrameSpec.PulseScaleAtHalf | DX11Starter/Game.cpp:251-254 | at 0.5 s the pulse scale is (1, 1, 1) |
| Games.RefreshAll | DX11Starter/Game.cpp:262-265 | every entity recomputes its world matrix from its pose |
| FrameSpec.FrameUpdateInSync | DX11Starter/Game.cpp:189-266 | after Update every entity keeps its mesh and its world matrix matches its final pose |
| FrameSpec.FrameUpdateMovesOnlyEntityZero | DX11Starter/Game.cpp:195-230 | the keys move entity 0 only, and only its position, by the turned key velocities |
| FrameSpec.FrameUpdateUnrotatedPlayer | DX11Starter/Game.cpp:195-230 | unrotated, entity 0 moves by ±5 × deltaTime along each held axis, opposite keys cancelling |
| FrameSpec.FrameUpdateSpin | DX11Starter/Game.cpp:232-237 | entities 1, 4 and 5 share entity 1's rotation with z advanced by deltaTime; no other rotation changes |
| FrameSpec.FrameUpdatePulse | DX11Starter/Game.cpp:239-256 | entities 2 and 3 share the pulse scale, within [0.75, 1.25]; no other scale changes |
| Games.Game.Draw | DX11Starter/Game.cpp:271-339 | the trace grows by exactly FrameTrace of the scene as it was; one more frame drawn; the reference invariant holds again |
| Games.DrawFrame | DX11Starter/Game.cpp:271-333 | the frame's calls up to Present; each buffer gains one reference per entity drawing with its mesh |
| Games.Game.PresentFrame | DX11Starter/Game.cpp:338 | appends the calls and Present(0, 0); the frame counts as drawn |
| Games.DrawPrologue | DX11Starter/Game.cpp:274-305 | the two clears (cornflower blue, depth 1 and stencil 0), the view and projection uploads, the buffer copy and the two shader binds |
| Games.DrawEntities | DX11Starter/Game.cpp:308-333 | the loop issues DrawCalls of the entities in order; each buffer gains one reference per entity bound to its mesh; the entities are unchanged |
| Games.DrawEntity | DX11Starter/Game.cpp:309-332 | one entity's transposed world upload, buffer copy, vertex and index buffer binds and DrawIndexed; only its own mesh's two buffers gain one reference |
| FrameSpec.Prologue | DX11Starter/Game.cpp:274-305 | the seven calls before the entity loop: the two clears, the view and projection uploads, the buffer copy, the two shader binds |
| FrameSpec.ObjectCalls | DX11Starter/Game.cpp:309-332 | one entity's five calls: transposed world upload, buffer copy, vertex buffer bind at stride 32, index buffer bind as R32_UINT, DrawIndexed of its count |
| FrameSpec.DrawCalls | DX11Starter/Game.cpp:308-333 | ObjectCalls of every entity, in order |
| FrameSpec.FrameTrace | DX11Starter/Game.cpp:274-338 | Prologue, the entity loop's calls, then Present(0, 0) |
| FrameSpec.FrameTraceOrder | DX11Starter/Game.cpp:271-339 | a frame has 8 + 5n calls: clears first, then the view and projection uploads; entity k's world upload, buffers and index count at 7 + 5k .. 11 + 5k; Present last |
| FrameSpec.FrameTraceEmptyScene | DX11Starter/Game.cpp:271-339 | with no entities a frame still clears and presents |
| FrameSpec.DrawCallsAt | DX11Starter/Game.cpp:308-333 | entity k's five calls sit at positions 5k to 5k + 4 of the loop's calls |
| FrameSpec.DrawCallsLength | DX11Starter/Game.cpp:308-333 | the loop issues five calls per entity |
| FrameSpec.DrawCallsSnoc | DX11Starter/Game.cpp:308-333 | one more loop iteration appends that entity's five calls |
| FrameSpec.FrameTraceOnce | DX11Starter/Game.cpp:277-338 | per frame, whatever the number of entities: one Present, one clear of each target, one view upload and one projection upload |
| FrameSpec.PresentOnce | DX11Starter/Game.cpp:338 | exactly one Present per frame |
| FrameSpec.ClearTargetOnce | DX11Starter/Game.cpp:279 | exactly one render-target clear per frame |
| FrameSpec.ClearDepthOnce | DX11Starter/Game.cpp:280-284 | exactly one depth-stencil clear per frame |
| FrameSpec.ViewUploadOnce | DX11Starter/Game.cpp:292 | exactly one view upload per frame |
| FrameSpec.ProjectionUploadOnce | DX11Starter/Game.cpp:293 | exactly one projection upload per frame |
| FrameSpec.FrameTracePerEntity | DX11Starter/Game.cpp:308-333 | one world upload and one DrawIndexed per entity |
| FrameSpec.DrawCallsCount | DX11Starter/Game.cpp:308-333 | a kind of call that occurs c times per entity occurs c × n times in the loop |
| Games.LiveReleasable | DX11Starter/Game.cpp:44-58 | a live scene, after any number of frames, is one the destructor can release |
| Games.ReleasableAppend | DX11Starter/Game.cpp:97-170 | appending separate meshes whose handles are apart from the old ones keeps the collection releasable |
| Games.SceneBoundTwice | DX11Starter/Game.cpp:164-169 | the six entities laid out over three distinct meshes draw each mesh twice |
| Games.Start | DX11Starter/Game.cpp:15-76 | construction then Init on a device that accepts every buffer: a fresh valid scene of three meshes and six entities, each mesh used twice, only the topology call issued |
| Games.PlayOneFrame | DX11Starter/Game.cpp:189-339 | Start, one Update and one Draw compose: the trace holds the topology call and 8 + 5 × 6 frame calls ending in Present, one frame is drawn and the scene is valid |
| Games.StartAndQuit | DX11Starter/Game.cpp:44-76 | construction, Init and the destructor on any device: each handle exists exactly when the device accepted it, and each existing buffer ends with no reference |
| Games.TimesIsProduct | DX11Starter/Game.cpp:320-322 | the references taken frame by frame add up to frames × uses |

## Left out

- The camera (construction, Update, OnResize, the view and projection matrices): its matrices are parameters of Draw, and Camera is not part of this model.
- LoadShaders and the SimpleShader wrappers: binds and uploads appear only as trace events.
- The escape key and Quit, mouse input, and the window and console setup in the constructor: platform I/O.
- Material and DirectionalLight: they are defined alongside but unused by the core.
- Floating point: vectors and matrices hold exact reals. `(long)totalTime` and C++ `%` are written out with truncation toward zero.
- DirectXMath itself (translation, roll-pitch-yaw, scaling, matrix product, quaternion, rotate): it is an opaque `MathLib` parameter. Only `Identity`, `Transpose`, `Lerp`, vector `Add` and `TransformPoint` are given concretely.
- Vertex and index contents and the data pointers: they are not modelled; only counts and byte widths are. The sizes follow `Vertex.h` (32 bytes: position, normal, uv). The initialisers in CreateBasicGeometry give a position and a colour, which does not match `Vertex.h`.
- CreateBuffer's failure modes: only accept or refuse, through `Device.accepts`, is modelled. A refused buffer leaves the handle null.
- Freeing memory: `delete` on meshes and entities is modelled only as the buffer releases it causes.
- The shader and camera deletes in the destructor: the model has no such objects.
- The initial `rate = 0.5f`: it is dead, because both branches overwrite it.
- The `&entities[0] != nullptr` test in Update: it is always true, so the model has no branch for it.
- The parameterless `Update` declared in `Entity.h`: `Entity.cpp` has no body for it.
- Games.Game.Update: requires at least six entities. The source indexes entities 0 to 5 unchecked, which is undefined behaviour with fewer.
- Games.Game.Draw: requires the valid scene invariant. The source would dereference a null mesh or buffer, or AddRef a freed buffer, outside it.
- Games.Game.Draw: its ensures does not repeat the per-buffer reference growth. Games.DrawFrame states that growth. It also follows from `Valid()` with one more frame.
- Games.Game.CreateBasicGeometry: the three meshes and the six entities are each appended as one group rather than by nine separate `push_back` calls (three for meshes, six for entities). Nothing observes the collections in between.
- Games.Game.Draw: the device calls are returned as event sequences by helper methods rather than appended one by one.
- Meshes.Mesh.Copy and Meshes.Mesh.Assign: both require non-null live handles in the source mesh. The source dereferences them unchecked.
- Meshes.Mesh.GetVertexBuffer: requires a non-null live vertex buffer. The source calls AddRef on it unchecked, which is undefined behaviour on a null handle.
- Meshes.Mesh.GetIndexBuffer: requires a non-null live index buffer. The source calls AddRef on it unchecked, which is undefined behaviour on a null handle.
- Games.Game.Destroy, Games.DeleteMeshes and Games.DeleteMesh: require that no two meshes share a non-null handle and that every non-null handle is live. Meshes of the scene are never copied, so this holds of every scene Init builds; a shared or freed handle would be released twice in the source.
