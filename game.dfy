/** The frame driver (DX11Starter/Game.cpp): the scene's meshes and entities, the motion
    rules of one Update, the calls of one Draw (appended to `trace`), and the cleanup of
    the destructor.  `framesDrawn` counts the Draw calls so far; it is what the buffer
    reference counts grow with, because the buffer getters take a reference that Draw
    never gives back. */
module Games {
  import opened DXMath
  import opened Meshes
  import opened Entities
  import opened FrameSpec
  import opened Seqs

  /** The states of a sequence of entities, in order. */
  ghost function StatesOf(es: seq<Entity>): seq<EntityState>
    reads es
  {
    seq(|es|, i requires 0 <= i < |es| reads es => es[i].State())
  }

  /** The mesh of each entity, in order. */
  ghost function BindingsOf(es: seq<Entity>): seq<Mesh?>
    reads es
  {
    seq(|es|, i requires 0 <= i < |es| reads es => es[i].mesh)
  }

  /** What Draw reads of each entity: its world matrix and its mesh's handles and count. */
  ghost function ItemsOf(es: seq<Entity>, ms: seq<Mesh>): seq<DrawItem>
    requires BoundTo(BindingsOf(es), ms)
    reads es, ms
  {
    assert forall i :: 0 <= i < |es| ==> BindingsOf(es)[i] == es[i].mesh;
    seq(|es|, i requires 0 <= i < |es| && es[i].mesh in ms reads es, ms =>
      DrawItem(es[i].worldMatrix, es[i].mesh.vertexBuffer, es[i].mesh.indexBuffer, es[i].mesh.indexCount))
  }

  /** Every binding names one of the meshes. */
  predicate BoundTo(bs: seq<Mesh?>, ms: seq<Mesh>)
  {
    forall i :: 0 <= i < |bs| ==> bs[i] in ms
  }

  /** Every buffer handle held by one of the meshes. */
  ghost function HandlesOf(ms: seq<Mesh>): set<Buffer?>
    reads ms
  {
    (set m | m in ms :: m.vertexBuffer) + (set m | m in ms :: m.indexBuffer)
  }

  /** Every mesh holds two distinct buffers and no two meshes share a buffer.  This reads
      only the meshes, so it survives any change of reference counts. */
  ghost predicate OwnBuffers(ms: seq<Mesh>)
    reads ms
  {
    (forall k :: 0 <= k < |ms| ==>
      ms[k].vertexBuffer != null && ms[k].indexBuffer != null && ms[k].vertexBuffer != ms[k].indexBuffer) &&
    (forall i, j :: 0 <= i < |ms| && 0 <= j < |ms| && i != j ==> ShareNoBuffer(ms, i, j))
  }

  /** Meshes `i` and `j` share no buffer handle. */
  ghost predicate ShareNoBuffer(ms: seq<Mesh>, i: nat, j: nat)
    requires i < |ms| && j < |ms|
    reads ms
  {
    ms[i].vertexBuffer != ms[j].vertexBuffer && ms[i].indexBuffer != ms[j].indexBuffer &&
    ms[i].vertexBuffer != ms[j].indexBuffer
  }

  /** No handle of `a` that is not null is a handle of `b`. */
  ghost predicate MeshesApart(a: Mesh, b: Mesh)
    reads a, b
  {
    (a.vertexBuffer == null || (a.vertexBuffer != b.vertexBuffer && a.vertexBuffer != b.indexBuffer)) &&
    (a.indexBuffer == null || (a.indexBuffer != b.vertexBuffer && a.indexBuffer != b.indexBuffer))
  }

  /** Meshes `i` and `j` hold no handle in common. */
  ghost predicate HandlesApart(ms: seq<Mesh>, i: nat, j: nat)
    requires i < |ms| && j < |ms|
    reads ms
  {
    MeshesApart(ms[i], ms[j])
  }

  /** Every mesh keeps its two handles apart and no two meshes hold the same handle; a
      handle may be null, where the device refused the buffer. */
  ghost predicate Separate(ms: seq<Mesh>)
    reads ms
  {
    (forall k :: 0 <= k < |ms| ==> ms[k].Valid()) &&
    (forall i, j :: 0 <= i < |ms| && 0 <= j < |ms| && i != j ==> HandlesApart(ms, i, j))
  }

  /** Every handle of `m` that is not null is live. */
  ghost predicate HandlesLive(m: Mesh)
    reads m, m.vertexBuffer, m.indexBuffer
  {
    (m.vertexBuffer != null ==> m.vertexBuffer.refs > 0) &&
    (m.indexBuffer != null ==> m.indexBuffer.refs > 0)
  }

  /** What the Game destructor needs of the meshes: separate, with live handles. */
  ghost predicate Releasable(ms: seq<Mesh>)
    reads ms, HandlesOf(ms)
  {
    Separate(ms) && forall k :: 0 <= k < |ms| ==> HandlesLive(ms[k])
  }

  /** The meshes own their buffers, and each buffer carries its creation reference plus
      one reference per frame for every binding to its mesh. */
  ghost predicate Live(ms: seq<Mesh>, bs: seq<Mesh?>, frames: nat)
    reads ms, HandlesOf(ms)
  {
    OwnBuffers(ms) &&
    forall k :: 0 <= k < |ms| ==>
      ms[k].vertexBuffer.refs == 1 + Times(frames, multiset(bs)[ms[k]]) &&
      ms[k].indexBuffer.refs == 1 + Times(frames, multiset(bs)[ms[k]])
  }

  /** The scene `ms`, `es` after `frames` frames: meshes and entities are distinct objects,
      every entity draws with one of the meshes, and the meshes are live. */
  ghost predicate Drawable(ms: seq<Mesh>, es: seq<Entity>, frames: nat)
    reads ms, es, HandlesOf(ms)
  {
    Distinct(ms) && Distinct(es) && BoundTo(BindingsOf(es), ms) && Live(ms, BindingsOf(es), frames)
  }

  /** The references `uses` bindings take over `frames` frames, counted frame by frame. */
  function Times(frames: nat, uses: nat): nat
  {
    if frames == 0 then 0 else Times(frames - 1, uses) + uses
  }

  lemma {:induction false} TimesIsProduct(frames: nat, uses: nat)
    ensures Times(frames, uses) == frames * uses
  {
    if frames > 0 {
      TimesIsProduct(frames - 1, uses);
    }
  }

  /** Before any frame, appending meshes that own their own buffers, none shared with the
      meshes already there and each of one reference, keeps the scene live, whatever the
      bindings. */
  lemma LiveAppend(ms: seq<Mesh>, ns: seq<Mesh>, bs: seq<Mesh?>, cs: seq<Mesh?>)
    requires Live(ms, bs, 0) && OwnBuffers(ns)
    requires forall k :: 0 <= k < |ns| ==> ns[k].vertexBuffer.refs == 1 && ns[k].indexBuffer.refs == 1
    requires forall i, k :: 0 <= i < |ms| && 0 <= k < |ns| ==>
      ms[i].vertexBuffer != ns[k].vertexBuffer && ms[i].vertexBuffer != ns[k].indexBuffer &&
      ms[i].indexBuffer != ns[k].vertexBuffer && ms[i].indexBuffer != ns[k].indexBuffer
    ensures Live(ms + ns, cs, 0)
  {
    var all := ms + ns;
    forall i, j | 0 <= i < |all| && 0 <= j < |all| && i != j
      ensures ShareNoBuffer(all, i, j)
    {
      if i < |ms| && j < |ms| {
        assert ShareNoBuffer(ms, i, j);
      } else if i >= |ms| && j >= |ms| {
        assert ShareNoBuffer(ns, i - |ms|, j - |ms|);
      }
      if i >= |ms| {
        assert all[i] == ns[i - |ms|];
      }
      if j >= |ms| {
        assert all[j] == ns[j - |ms|];
      }
    }
    forall k | 0 <= k < |all|
      ensures all[k].vertexBuffer != null && all[k].indexBuffer != null &&
        all[k].vertexBuffer != all[k].indexBuffer &&
        all[k].vertexBuffer.refs == 1 + Times(0, multiset(cs)[all[k]]) &&
        all[k].indexBuffer.refs == 1 + Times(0, multiset(cs)[all[k]])
    {
      if k >= |ms| {
        assert all[k] == ns[k - |ms|];
      }
    }
  }

  /** One more frame in which every binding took one reference to each buffer of its
      mesh. */
  lemma LiveNextFrame(ms: seq<Mesh>, bs: seq<Mesh?>, frames: nat, next: nat)
    requires OwnBuffers(ms) && next == frames + 1
    requires forall k :: 0 <= k < |ms| ==>
      ms[k].vertexBuffer.refs == 1 + Times(frames, multiset(bs)[ms[k]]) + multiset(bs)[ms[k]] &&
      ms[k].indexBuffer.refs == 1 + Times(frames, multiset(bs)[ms[k]]) + multiset(bs)[ms[k]]
    ensures Live(ms, bs, next)
  {
    forall k | 0 <= k < |ms|
      ensures Times(next, multiset(bs)[ms[k]]) == Times(frames, multiset(bs)[ms[k]]) + multiset(bs)[ms[k]]
    {
    }
  }

  /** A live scene can be torn down. */
  lemma LiveReleasable(ms: seq<Mesh>, bs: seq<Mesh?>, frames: nat)
    requires Live(ms, bs, frames)
    ensures Releasable(ms)
  {
    forall i, j | 0 <= i < |ms| && 0 <= j < |ms| && i != j
      ensures HandlesApart(ms, i, j)
    {
      assert ShareNoBuffer(ms, i, j) && ShareNoBuffer(ms, j, i);
    }
  }

  /** Appending meshes that can be torn down, none holding a handle of the meshes already
      there, keeps the collection releasable. */
  lemma ReleasableAppend(ms: seq<Mesh>, ns: seq<Mesh>)
    requires Releasable(ms) && Releasable(ns)
    requires forall i, k :: 0 <= i < |ms| && 0 <= k < |ns| ==> MeshesApart(ms[i], ns[k]) && MeshesApart(ns[k], ms[i])
    ensures Releasable(ms + ns)
  {
    var all := ms + ns;
    forall i, j | 0 <= i < |all| && 0 <= j < |all| && i != j
      ensures HandlesApart(all, i, j)
    {
      if i < |ms| && j < |ms| {
        assert HandlesApart(ms, i, j);
      } else if i >= |ms| && j >= |ms| {
        assert HandlesApart(ns, i - |ms|, j - |ms|);
      }
      if i >= |ms| {
        assert all[i] == ns[i - |ms|];
      }
      if j >= |ms| {
        assert all[j] == ns[j - |ms|];
      }
    }
    forall k | 0 <= k < |all|
      ensures all[k].Valid() && HandlesLive(all[k])
    {
      if k >= |ms| {
        assert all[k] == ns[k - |ms|];
      }
    }
  }

  /** Entities appended with meshes of the enlarged collection keep every binding inside
      it. */
  lemma BoundToAppend(es: seq<Entity>, fs: seq<Entity>, ms: seq<Mesh>, ns: seq<Mesh>)
    requires BoundTo(BindingsOf(es), ms)
    requires forall i :: 0 <= i < |fs| ==> fs[i].mesh in ms + ns
    ensures BoundTo(BindingsOf(es + fs), ms + ns)
  {
    forall i | 0 <= i < |es + fs|
      ensures BindingsOf(es + fs)[i] in ms + ns
    {
      if i < |es| {
        assert BindingsOf(es)[i] == es[i].mesh && (es + fs)[i] == es[i];
      } else {
        assert (es + fs)[i] == fs[i - |es|];
      }
    }
  }

  /** What the Mesh constructor leaves behind for the given counts. */
  ghost predicate MeshBuilt(m: Mesh, device: Device, vertexCount: int, indexCount: int)
    reads m
  {
    m.Valid() && m.indexCount == indexCount &&
    (m.vertexBuffer != null <==> device.accepts(VertexBufferDesc(vertexCount))) &&
    (m.indexBuffer != null <==> device.accepts(IndexBufferDesc(indexCount))) &&
    (m.vertexBuffer != null ==> m.vertexBuffer.desc == VertexBufferDesc(vertexCount)) &&
    (m.indexBuffer != null ==> m.indexBuffer.desc == IndexBufferDesc(indexCount))
  }

  /** `if (GetAsyncKeyState(key) & 0x8000) e.MoveForward(v)`, with the held keys given. */
  method MoveIfHeld(e: Entity, math: MathLib, keys: set<char>, key: char, v: Float3)
    modifies e`position
    ensures e.State() == MovedForwardAll(old(e.State()), math, KeyStep(keys, key, v))
  {
    if key in keys {
      e.MoveForward(math, v);
      assert [v][..0] == [];
    }
  }

  /** The movement block for entity 0: one MoveForward per held key, checked in the order
      I, K, L, J, O, U. */
  method MovePlayer(player: Entity, math: MathLib, keys: set<char>, deltaTime: real)
    modifies player`position
    ensures player.State() == MovedForwardAll(old(player.State()), math, KeyVelocities(keys, deltaTime))
  {
    ghost var s := player.State();
    var speed := Speed;
    var up, down := Float3(0.0, speed * deltaTime, 0.0), Float3(0.0, -speed * deltaTime, 0.0);
    var right, left := Float3(speed * deltaTime, 0.0, 0.0), Float3(-speed * deltaTime, 0.0, 0.0);
    var forward, back := Float3(0.0, 0.0, speed * deltaTime), Float3(0.0, 0.0, -speed * deltaTime);
    MoveIfHeld(player, math, keys, 'I', up);
    ghost var vs := KeyStep(keys, 'I', up);
    MoveIfHeld(player, math, keys, 'K', down);
    MovedForwardAllAppend(s, math, vs, KeyStep(keys, 'K', down));
    vs := vs + KeyStep(keys, 'K', down);
    MoveIfHeld(player, math, keys, 'L', right);
    MovedForwardAllAppend(s, math, vs, KeyStep(keys, 'L', right));
    vs := vs + KeyStep(keys, 'L', right);
    MoveIfHeld(player, math, keys, 'J', left);
    MovedForwardAllAppend(s, math, vs, KeyStep(keys, 'J', left));
    vs := vs + KeyStep(keys, 'J', left);
    MoveIfHeld(player, math, keys, 'O', forward);
    MovedForwardAllAppend(s, math, vs, KeyStep(keys, 'O', forward));
    vs := vs + KeyStep(keys, 'O', forward);
    MoveIfHeld(player, math, keys, 'U', back);
    MovedForwardAllAppend(s, math, vs, KeyStep(keys, 'U', back));
    vs := vs + KeyStep(keys, 'U', back);
    KeyVelocitiesInOrder(keys, deltaTime, speed);
  }

  /** `new Mesh(device, verticesK, vertexCountK, indicesK, indexCountK)` for mesh k of the
      scene. */
  method NewMesh(device: Device, k: nat) returns (m: Mesh)
    requires k < 3
    ensures fresh(m) && MeshBuilt(m, device, VertexCounts[k], IndexCounts()[k])
    ensures m.vertexBuffer != null ==> fresh(m.vertexBuffer) && m.vertexBuffer.refs == 1
    ensures m.indexBuffer != null ==> fresh(m.indexBuffer) && m.indexBuffer.refs == 1
  {
    m := new Mesh(device, VertexCounts[k], IndexCounts()[k]);
  }

  /** The three `new Mesh` calls of CreateBasicGeometry, in order. */
  method NewMeshes(device: Device) returns (ms: seq<Mesh>)
    ensures |ms| == 3 && Distinct(ms)
    ensures forall k :: 0 <= k < 3 ==> MeshBuilt(ms[k], device, VertexCounts[k], IndexCounts()[k])
    ensures forall k :: 0 <= k < 3 ==> fresh(ms[k])
    ensures forall k :: 0 <= k < 3 ==> ms[k].vertexBuffer != null ==> fresh(ms[k].vertexBuffer) && ms[k].vertexBuffer.refs == 1
    ensures forall k :: 0 <= k < 3 ==> ms[k].indexBuffer != null ==> fresh(ms[k].indexBuffer) && ms[k].indexBuffer.refs == 1
    ensures SetupAccepted(device) ==> OwnBuffers(ms)
    ensures Separate(ms)
  {
    var mesh1 := NewMesh(device, 0);
    var mesh2 := NewMesh(device, 1);
    assert MeshesApart(mesh1, mesh2) && MeshesApart(mesh2, mesh1);
    var mesh3 := NewMesh(device, 2);
    assert MeshesApart(mesh1, mesh3) && MeshesApart(mesh3, mesh1);
    assert MeshesApart(mesh2, mesh3) && MeshesApart(mesh3, mesh2);
    ms := [mesh1, mesh2, mesh3];
    SceneMeshes(ms, device);
  }

  /** The three meshes of the scene, built one after another, in one heap. */
  lemma SceneMeshes(ms: seq<Mesh>, device: Device)
    requires |ms| == 3
    requires forall k :: 0 <= k < 3 ==> MeshBuilt(ms[k], device, VertexCounts[k], IndexCounts()[k])
    requires forall i, j :: 0 <= i < 3 && 0 <= j < 3 && i != j ==> MeshesApart(ms[i], ms[j])
    ensures Separate(ms)
    ensures SetupAccepted(device) ==> OwnBuffers(ms)
  {
    forall i, j | 0 <= i < 3 && 0 <= j < 3 && i != j
      ensures HandlesApart(ms, i, j)
    {
    }
    if SetupAccepted(device) {
      forall k | 0 <= k < 3
        ensures ms[k].vertexBuffer != null && ms[k].indexBuffer != null
      {
        assert device.accepts(VertexBufferDesc(VertexCounts[k])) && device.accepts(IndexBufferDesc(IndexCounts()[k]));
      }
      forall i, j | 0 <= i < 3 && 0 <= j < 3 && i != j
        ensures ShareNoBuffer(ms, i, j)
      {
        assert HandlesApart(ms, i, j);
      }
    }
  }

  /** The six `new Entity` calls of CreateBasicGeometry, bound to meshes 0, 0, 1, 2, 1, 2
      of `meshes`. */
  method NewEntities(meshes: seq<Mesh>) returns (es: seq<Entity>)
    requires |meshes| >= 3
    ensures |es| == 6 && Distinct(es)
    ensures forall i :: 0 <= i < 6 ==> fresh(es[i])
    ensures forall i :: 0 <= i < 6 ==> es[i].State() == Spawned(meshes[SceneBindings[i]])
  {
    var entity0 := new Entity(meshes[0]);
    var entity1 := new Entity(meshes[0]);
    var entity2 := new Entity(meshes[1]);
    var entity3 := new Entity(meshes[2]);
    var entity4 := new Entity(meshes[1]);
    var entity5 := new Entity(meshes[2]);
    es := [entity0, entity1, entity2, entity3, entity4, entity5];
  }

  /** The three meshes and six entities CreateBasicGeometry appends to `ms` and `es`.  A
      live scene that has drawn nothing stays live once the device accepts every buffer. */
  method NewScene(device: Device, ms: seq<Mesh>, es: seq<Entity>, ghost f: nat)
    returns (newMeshes: seq<Mesh>, newEntities: seq<Entity>)
    requires Distinct(ms) && Distinct(es) && BoundTo(BindingsOf(es), ms)
    ensures Distinct(ms + newMeshes) && Distinct(es + newEntities)
    ensures BoundTo(BindingsOf(es + newEntities), ms + newMeshes)
    ensures |newMeshes| == 3 && |newEntities| == 6
    ensures forall k :: 0 <= k < 3 ==>
      fresh(newMeshes[k]) && MeshBuilt(newMeshes[k], device, VertexCounts[k], IndexCounts()[k])
    ensures forall i :: 0 <= i < 6 ==>
      fresh(newEntities[i]) && newEntities[i].State() == Spawned((ms + newMeshes)[SceneBindings[i]])
    ensures forall k :: 0 <= k < 3 ==> newMeshes[k].vertexBuffer != null ==>
      fresh(newMeshes[k].vertexBuffer) && newMeshes[k].vertexBuffer.refs == 1
    ensures forall k :: 0 <= k < 3 ==> newMeshes[k].indexBuffer != null ==>
      fresh(newMeshes[k].indexBuffer) && newMeshes[k].indexBuffer.refs == 1
    ensures old(Live(ms, BindingsOf(es), f)) && f == 0 && SetupAccepted(device) ==>
      Live(ms + newMeshes, BindingsOf(es + newEntities), 0)
    ensures old(Releasable(ms)) ==> Releasable(ms + newMeshes)
  {
    ghost var bindings := BindingsOf(es);
    ghost var wasLive := Live(ms, bindings, f);
    ghost var wasReleasable := Releasable(ms);
    newMeshes := NewMeshes(device);
    if wasReleasable {
      forall i, k | 0 <= i < |ms| && 0 <= k < 3
        ensures MeshesApart(ms[i], newMeshes[k]) && MeshesApart(newMeshes[k], ms[i])
      {
      }
      ReleasableAppend(ms, newMeshes);
    }
    DistinctAppend(ms, newMeshes);
    newEntities := NewEntities(ms + newMeshes);
    DistinctAppend(es, newEntities);
    forall i | 0 <= i < 6
      ensures newEntities[i].mesh in ms + newMeshes
    {
      assert newEntities[i].State().mesh == (ms + newMeshes)[SceneBindings[i]];
    }
    BoundToAppend(es, newEntities, ms, newMeshes);
    if wasLive && f == 0 && SetupAccepted(device) {
      forall i, k | 0 <= i < |ms| && 0 <= k < 3
        ensures ms[i].vertexBuffer != newMeshes[k].vertexBuffer &&
          ms[i].vertexBuffer != newMeshes[k].indexBuffer &&
          ms[i].indexBuffer != newMeshes[k].vertexBuffer &&
          ms[i].indexBuffer != newMeshes[k].indexBuffer
      {
      }
      LiveAppend(ms, newMeshes, bindings, BindingsOf(es + newEntities));
    }
  }

  /** `es[i]->SetRotation(r)`, seen on the states of the whole sequence. */
  method SetRotationOf(es: seq<Entity>, i: nat, r: Float3)
    requires Distinct(es) && i < |es|
    modifies es[i]
    ensures StatesOf(es) == old(StatesOf(es))[i := old(StatesOf(es))[i].(rotation := r)]
  {
    es[i].SetRotation(r);
    forall j | 0 <= j < |es| && j != i
      ensures es[j].State() == old(es[j].State())
    {
      DistinctAt(es, i, j);
    }
  }

  /** `es[i]->SetScale(v)`, seen on the states of the whole sequence. */
  method SetScaleOf(es: seq<Entity>, i: nat, v: Float3)
    requires Distinct(es) && i < |es|
    modifies es[i]
    ensures StatesOf(es) == old(StatesOf(es))[i := old(StatesOf(es))[i].(scale := v)]
  {
    es[i].SetScale(v);
    forall j | 0 <= j < |es| && j != i
      ensures es[j].State() == old(es[j].State())
    {
      DistinctAt(es, i, j);
    }
  }

  /** The motion rules of Game::Update, in the order the source applies them: the held
      keys move entity 0, entities 1, 4 and 5 take entity 1's rotation advanced about z,
      and entities 2 and 3 take the pulse scale. */
  method ApplyMotion(es: seq<Entity>, math: MathLib, keys: set<char>, deltaTime: real, totalTime: real)
    requires |es| >= 6 && Distinct(es)
    modifies es
    ensures StatesOf(es) == Posed(old(StatesOf(es)), math, keys, deltaTime, totalTime)
  {
    ghost var s := StatesOf(es);
    ghost var moved := MovedForwardAll(s[0], math, KeyVelocities(keys, deltaTime));
    MovePlayer(es[0], math, keys, deltaTime);
    forall j | 0 <= j < |es| && j != 0
      ensures es[j].State() == s[j]
    {
      DistinctAt(es, 0, j);
    }
    ghost var s1 := s[0 := moved];
    assert StatesOf(es) == s1;

    var currentRot := es[1].GetRotation();
    var newRot := Float3(currentRot.x, currentRot.y, currentRot.z + 1.0 * deltaTime);
    assert newRot == Spun(s[1].rotation, deltaTime);
    SetRotationOf(es, 1, newRot);
    ghost var s2 := s1[1 := s[1].(rotation := newRot)];
    assert StatesOf(es) == s2;
    SetRotationOf(es, 4, newRot);
    ghost var s3 := s2[4 := s[4].(rotation := newRot)];
    assert StatesOf(es) == s3;
    SetRotationOf(es, 5, newRot);
    ghost var s4 := s3[5 := s[5].(rotation := newRot)];
    assert StatesOf(es) == s4;

    var rate := PulseRate(totalTime);
    var scale := Lerp(ScaleMin, ScaleMax, rate);
    assert scale == PulseScale(totalTime);
    SetScaleOf(es, 2, scale);
    ghost var s5 := s4[2 := s[2].(scale := scale)];
    assert StatesOf(es) == s5;
    SetScaleOf(es, 3, scale);
    assert StatesOf(es) == s5[3 := s[3].(scale := scale)];
    PosedAsUpdates(s, math, keys, deltaTime, totalTime);
  }

  /** The closing loop of Game::Update: every entity recomputes its world matrix. */
  method RefreshAll(es: seq<Entity>, math: MathLib, deltaTime: real, totalTime: real)
    requires Distinct(es)
    modifies es
    ensures StatesOf(es) == RefreshedAll(old(StatesOf(es)), math)
  {
    var i := 0;
    while i != |es|
      invariant 0 <= i <= |es|
      invariant forall j :: 0 <= j < |es| ==>
        es[j].State() == if j < i then Refreshed(old(es[j].State()), math) else old(es[j].State())
    {
      forall j | 0 <= j < |es| && j != i
        ensures es[j] != es[i]
      {
        DistinctAt(es, j, i);
      }
      es[i].Update(math, deltaTime, totalTime);
      i := i + 1;
    }
  }

  /** `delete ms[k]`: the mesh destructor releases each handle of ms[k] that is not null,
      and no other mesh's buffers change. */
  method DeleteMesh(ms: seq<Mesh>, k: nat)
    requires Separate(ms) && k < |ms| && HandlesLive(ms[k])
    modifies ms[k].Handles()
    ensures forall j :: 0 <= j < |ms| ==>
      (ms[j].vertexBuffer != null ==>
        ms[j].vertexBuffer.refs == old(ms[j].vertexBuffer.refs) - (if j == k then 1 else 0)) &&
      (ms[j].indexBuffer != null ==>
        ms[j].indexBuffer.refs == old(ms[j].indexBuffer.refs) - (if j == k then 1 else 0))
  {
    forall j | 0 <= j < |ms| && j != k
      ensures ms[j].vertexBuffer !in ms[k].Handles() && ms[j].indexBuffer !in ms[k].Handles()
    {
      assert HandlesApart(ms, j, k);
    }
    ms[k].Destroy();
  }

  /** The mesh loop of the Game destructor: every mesh is deleted once, in order, which
      releases every handle that is not null exactly once. */
  method DeleteMeshes(ms: seq<Mesh>)
    requires Releasable(ms)
    modifies HandlesOf(ms)
    ensures forall k :: 0 <= k < |ms| ==>
      (ms[k].vertexBuffer != null ==> ms[k].vertexBuffer.refs == old(ms[k].vertexBuffer.refs) - 1) &&
      (ms[k].indexBuffer != null ==> ms[k].indexBuffer.refs == old(ms[k].indexBuffer.refs) - 1)
  {
    var i := 0;
    while i != |ms|
      invariant 0 <= i <= |ms|
      invariant forall k :: 0 <= k < |ms| ==>
        (ms[k].vertexBuffer != null ==>
          ms[k].vertexBuffer.refs == old(ms[k].vertexBuffer.refs) - (if k < i then 1 else 0)) &&
        (ms[k].indexBuffer != null ==>
          ms[k].indexBuffer.refs == old(ms[k].indexBuffer.refs) - (if k < i then 1 else 0))
    {
      assert old(HandlesLive(ms[i]));
      assert ms[i] in ms;
      DeleteMesh(ms, i);
      i := i + 1;
    }
  }

  /** The loop body of Game::Draw for one entity, whose mesh is `ms[k]`: upload its
      transposed world matrix, bind its mesh's two buffers (each getter takes a reference)
      and draw its index count.  No other mesh's buffers change. */
  method DrawEntity(e: Entity, ghost item: DrawItem, ghost ms: seq<Mesh>, ghost k: nat)
    returns (calls: seq<Event>)
    requires OwnBuffers(ms) && k < |ms| && ms[k] == e.mesh
    requires item == DrawItem(e.worldMatrix, e.mesh.vertexBuffer, e.mesh.indexBuffer, e.mesh.indexCount)
    requires e.mesh.vertexBuffer.refs > 0 && e.mesh.indexBuffer.refs > 0
    modifies e.mesh.vertexBuffer, e.mesh.indexBuffer
    ensures calls == ObjectCalls(item)
    ensures forall j :: 0 <= j < |ms| ==>
      ms[j].vertexBuffer.refs == old(ms[j].vertexBuffer.refs) + (if j == k then 1 else 0) &&
      ms[j].indexBuffer.refs == old(ms[j].indexBuffer.refs) + (if j == k then 1 else 0)
  {
    forall j | 0 <= j < |ms| && j != k
      ensures ms[j].vertexBuffer != e.mesh.vertexBuffer && ms[j].vertexBuffer != e.mesh.indexBuffer
      ensures ms[j].indexBuffer != e.mesh.vertexBuffer && ms[j].indexBuffer != e.mesh.indexBuffer
    {
      assert ShareNoBuffer(ms, j, k) && ShareNoBuffer(ms, k, j);
    }
    var world := e.GetWorldMatrix();
    calls := [SetMatrix4x4("world", Transpose(world))];
    calls := calls + [CopyAllBufferData];
    var mesh := e.GetMesh();
    var vb := mesh.GetVertexBuffer();
    calls := calls + [IASetVertexBuffers(vb, VertexStride, 0)];
    var ib := mesh.GetIndexBuffer();
    calls := calls + [IASetIndexBuffer(ib, R32Uint, 0)];
    var n := mesh.GetIndexCount();
    calls := calls + [DrawIndexed(n % UintRange, 0, 0)];
  }

  /** The once-per-frame calls of Game::Draw before the entity loop. */
  method DrawPrologue(view: Float4x4, projection: Float4x4) returns (calls: seq<Event>)
    ensures calls == Prologue(view, projection)
  {
    calls := [ClearRenderTargetView(CornflowerBlue)];
    calls := calls + [ClearDepthStencilView(true, true, 1.0, 0)];
    calls := calls + [SetMatrix4x4("view", view)];
    calls := calls + [SetMatrix4x4("projection", projection)];
    calls := calls + [CopyAllBufferData];
    calls := calls + [SetVertexShader];
    calls := calls + [SetPixelShader];
  }

  /** The entity loop of Game::Draw over the entities `es`, whose meshes are among `ms`:
      each entity in order, each taking one reference to each buffer of its mesh. */
  method DrawEntities(es: seq<Entity>, ghost ms: seq<Mesh>, ghost bindings: seq<Mesh?>)
    returns (calls: seq<Event>)
    requires bindings == BindingsOf(es)
    requires Distinct(ms) && BoundTo(bindings, ms) && OwnBuffers(ms)
    requires forall k :: 0 <= k < |ms| ==> ms[k].vertexBuffer.refs >= 1 && ms[k].indexBuffer.refs >= 1
    modifies HandlesOf(ms)
    ensures calls == DrawCalls(old(ItemsOf(es, ms)))
    ensures forall k :: 0 <= k < |ms| ==>
      ms[k].vertexBuffer.refs == old(ms[k].vertexBuffer.refs) + multiset(bindings)[ms[k]] &&
      ms[k].indexBuffer.refs == old(ms[k].indexBuffer.refs) + multiset(bindings)[ms[k]]
    ensures unchanged(es)
  {
    ghost var items := ItemsOf(es, ms);
    // the references taken so far, per mesh
    ghost var taken: seq<nat> := seq(|ms|, _ => 0);
    calls := [];
    assert Distinct<Mesh?>(ms) by {
      forall i, j | 0 <= i < j < |ms|
        ensures Apart<Mesh?>(ms, i, j)
      {
        assert Apart(ms, i, j);
      }
    }
    var i := 0;
    while i != |es|
      invariant 0 <= i <= |es|
      invariant calls == DrawCalls(items[..i])
      invariant Tallies(taken, ms, bindings[..i])
      invariant forall k :: 0 <= k < |ms| ==>
        ms[k].vertexBuffer.refs == old(ms[k].vertexBuffer.refs) + taken[k] &&
        ms[k].indexBuffer.refs == old(ms[k].indexBuffer.refs) + taken[k]
    {
      var e := es[i];
      assert bindings[i] == e.mesh && e.mesh in ms;
      ghost var k :| 0 <= k < |ms| && ms[k] == e.mesh;
      var objectCalls := DrawEntity(e, items[i], ms, k);
      calls := calls + objectCalls;
      DrawCallsSnoc(items, i);
      TalliesStep(taken, ms, bindings, i, k);
      taken := taken[k := taken[k] + 1];
      i := i + 1;
    }
    assert items[..i] == items && bindings[..i] == bindings;
  }

  /** The calls of Game::Draw up to Present, for the entities `es`, whose meshes `ms` are
      live after `f` frames: clear, upload view and projection, and draw every entity in
      order.  Each entity takes one new reference to each of its mesh's buffers, so the
      meshes are live after `g`, one frame more. */
  method DrawFrame(view: Float4x4, projection: Float4x4, es: seq<Entity>, ghost ms: seq<Mesh>,
                   ghost bindings: seq<Mesh?>, ghost f: nat, ghost g: nat)
    returns (calls: seq<Event>)
    requires bindings == BindingsOf(es) && g == f + 1 && Drawable(ms, es, f)
    modifies HandlesOf(ms)
    ensures calls + [Present(0, 0)] == FrameTrace(view, projection, old(ItemsOf(es, ms)))
    ensures forall k :: 0 <= k < |ms| ==>
      ms[k].vertexBuffer.refs == old(ms[k].vertexBuffer.refs) + multiset(bindings)[ms[k]] &&
      ms[k].indexBuffer.refs == old(ms[k].indexBuffer.refs) + multiset(bindings)[ms[k]]
    ensures Drawable(ms, es, g)
  {
    calls := DrawPrologue(view, projection);
    var entityCalls := DrawEntities(es, ms, bindings);
    calls := calls + entityCalls;
    forall k | 0 <= k < |ms|
      ensures ms[k].vertexBuffer.refs == 1 + Times(f, multiset(bindings)[ms[k]]) + multiset(bindings)[ms[k]]
      ensures ms[k].indexBuffer.refs == 1 + Times(f, multiset(bindings)[ms[k]]) + multiset(bindings)[ms[k]]
    {
      ghost var u: nat := multiset(bindings)[ms[k]];
      assert old(ms[k].vertexBuffer.refs) == 1 + Times(f, u);
      assert old(ms[k].indexBuffer.refs) == 1 + Times(f, u);
    }
    LiveNextFrame(ms, bindings, f, g);
    assert BindingsOf(es) == bindings;
  }

  class Game {
    var meshes: seq<Mesh>
    var entities: seq<Entity>
    /** The device, swap-chain and shader calls issued so far. */
    var trace: seq<Event>
    ghost var framesDrawn: nat

    ghost function States(): seq<EntityState>
      reads this`entities, entities
    {
      StatesOf(entities)
    }

    /** The mesh of each entity, in order. */
    ghost function MeshBindings(): seq<Mesh?>
      reads this`entities, entities
    {
      BindingsOf(entities)
    }

    /** How many entities draw with `m`. */
    ghost function Uses(m: Mesh): nat
      reads this`entities, entities
    {
      multiset(MeshBindings())[m]
    }

    /** Every buffer handle held by a mesh of the scene. */
    ghost function AllHandles(): set<Buffer?>
      reads this`meshes, meshes
    {
      HandlesOf(meshes)
    }

    /** What Draw reads of each entity. */
    ghost function Items(): seq<DrawItem>
      requires BoundTo(MeshBindings(), meshes)
      reads this`entities, this`meshes, entities, meshes
    {
      ItemsOf(entities, meshes)
    }

    /** The shape of the scene: meshes and entities are distinct objects, and every entity
        draws with a mesh of the scene. */
    ghost predicate Scene()
      reads this`meshes, this`entities, entities
    {
      Distinct(meshes) && Distinct(entities) && BoundTo(MeshBindings(), meshes)
    }

    /** A drawable scene, whose buffers carry one reference per frame drawn for every
        entity that draws with their mesh, besides the one they were created with. */
    ghost predicate Valid()
      reads this`meshes, this`entities, this`framesDrawn, entities, meshes, AllHandles()
    {
      Drawable(meshes, entities, framesDrawn)
    }

    /** The meshes and entities that one CreateBasicGeometry adds after the first `m0`
        meshes and `e0` entities. */
    ghost predicate AddedScene(device: Device, m0: nat, e0: nat)
      reads this`meshes, this`entities, entities, meshes
    {
      |meshes| == m0 + 3 && |entities| == e0 + 6 &&
      (forall k :: 0 <= k < 3 ==>
        MeshBuilt(meshes[m0..][k], device, VertexCounts[k], IndexCounts()[k])) &&
      (forall i :: 0 <= i < 6 ==>
        entities[e0..][i].State() == Spawned(meshes[SceneBindings[i]]))
    }

    /** An empty scene that has drawn nothing.  The window, camera and shaders the
        constructor also prepares are not part of this model. */
    constructor ()
      ensures meshes == [] && entities == [] && trace == [] && framesDrawn == 0
      ensures Valid() && Releasable(meshes)
    {
      meshes := [];
      entities := [];
      trace := [];
      framesDrawn := 0;
    }

    /** Pushes three meshes and then six entities bound to meshes[0], [0], [1], [2], [1],
        [2] of the whole collection.  Nothing observes the collections between the
        push_back calls, so each group is appended at once. */
    method CreateBasicGeometry(device: Device)
      requires Scene()
      modifies this
      ensures old(meshes) <= meshes && old(entities) <= entities
      ensures AddedScene(device, |old(meshes)|, |old(entities)|)
      ensures forall k :: |old(meshes)| <= k < |meshes| ==> fresh(meshes[k])
      ensures forall i :: |old(entities)| <= i < |entities| ==> fresh(entities[i])
      ensures forall k :: |old(meshes)| <= k < |meshes| ==>
        meshes[k].vertexBuffer != null ==> fresh(meshes[k].vertexBuffer) && meshes[k].vertexBuffer.refs == 1
      ensures forall k :: |old(meshes)| <= k < |meshes| ==>
        meshes[k].indexBuffer != null ==> fresh(meshes[k].indexBuffer) && meshes[k].indexBuffer.refs == 1
      ensures trace == old(trace) && framesDrawn == old(framesDrawn)
      ensures Scene()
      ensures old(Valid()) && framesDrawn == 0 && SetupAccepted(device) ==> Valid()
      ensures old(Releasable(meshes)) ==> Releasable(meshes)
    {
      var newMeshes, newEntities := NewScene(device, meshes, entities, framesDrawn);
      ghost var bindings := BindingsOf(entities + newEntities);
      meshes := meshes + newMeshes;
      entities := entities + newEntities;
      assert meshes[|old(meshes)|..] == newMeshes;
      assert entities[|old(entities)|..] == newEntities;
      assert MeshBindings() == bindings;
    }

    /** CreateBasicGeometry, then the triangle-list topology.  Shader loading is not part
        of this model. */
    method Init(device: Device)
      requires Scene()
      modifies this
      ensures old(meshes) <= meshes && old(entities) <= entities
      ensures AddedScene(device, |old(meshes)|, |old(entities)|)
      ensures forall k :: |old(meshes)| <= k < |meshes| ==> fresh(meshes[k])
      ensures forall i :: |old(entities)| <= i < |entities| ==> fresh(entities[i])
      ensures forall k :: |old(meshes)| <= k < |meshes| ==>
        meshes[k].vertexBuffer != null ==> fresh(meshes[k].vertexBuffer) && meshes[k].vertexBuffer.refs == 1
      ensures forall k :: |old(meshes)| <= k < |meshes| ==>
        meshes[k].indexBuffer != null ==> fresh(meshes[k].indexBuffer) && meshes[k].indexBuffer.refs == 1
      ensures trace == old(trace) + [IASetPrimitiveTopology(TriangleList)]
      ensures framesDrawn == old(framesDrawn)
      ensures Scene()
      ensures old(Valid()) && framesDrawn == 0 && SetupAccepted(device) ==> Valid()
      ensures old(Releasable(meshes)) ==> Releasable(meshes)
    {
      CreateBasicGeometry(device);
      trace := trace + [IASetPrimitiveTopology(TriangleList)];
    }

    /** One frame of motion: the held keys move entity 0, entities 1, 4 and 5 take entity
        1's rotation advanced about z, entities 2 and 3 take the pulse scale, and then every
        entity recomputes its world matrix.  The escape key and the camera are not part of
        this model. */
    method Update(math: MathLib, keys: set<char>, deltaTime: real, totalTime: real)
      requires Scene() && |entities| >= 6
      modifies entities
      ensures Scene()
      ensures States() == FrameUpdate(old(States()), math, keys, deltaTime, totalTime)
      ensures MeshBindings() == old(MeshBindings())
      ensures old(Valid()) ==> Valid()
    {
      ghost var s := States();
      ApplyMotion(entities, math, keys, deltaTime, totalTime);
      RefreshAll(entities, math, deltaTime, totalTime);
      FrameUpdateInSync(s, math, keys, deltaTime, totalTime);
      forall i | 0 <= i < |entities|
        ensures MeshBindings()[i] == old(MeshBindings())[i]
      {
        assert States()[i].mesh == s[i].mesh;
      }
      assert MeshBindings() == old(MeshBindings());
    }

    /** Game::Draw: one frame of calls, after which the scene has drawn one frame more. */
    method Draw(view: Float4x4, projection: Float4x4, deltaTime: real, totalTime: real)
      requires Valid()
      modifies this`trace, this`framesDrawn, AllHandles()
      ensures trace == old(trace) + FrameTrace(view, projection, old(Items()))
      ensures framesDrawn == old(framesDrawn) + 1
      ensures Valid()
    {
      ghost var bindings := MeshBindings();
      var calls := DrawFrame(view, projection, entities, meshes, bindings, framesDrawn, framesDrawn + 1);
      PresentFrame(calls, framesDrawn + 1);
    }

    /** The end of Game::Draw: the frame's calls, then Present(0, 0); the frame counts as
        drawn once it is presented. */
    method PresentFrame(calls: seq<Event>, ghost g: nat)
      requires g == framesDrawn + 1 && Drawable(meshes, entities, g)
      modifies this`trace, this`framesDrawn
      ensures trace == old(trace) + (calls + [Present(0, 0)])
      ensures framesDrawn == old(framesDrawn) + 1
      ensures Valid()
    {
      ghost var ms, es := meshes, entities;
      trace, framesDrawn := trace + (calls + [Present(0, 0)]), framesDrawn + 1;
      assert meshes == ms && entities == es && framesDrawn == g;
    }

    /** The destructor deletes every mesh once, which releases each of its handles that
        is not null once.  After frames have been drawn, the references Draw took stay
        outstanding. */
    method Destroy()
      requires Releasable(meshes)
      modifies AllHandles()
      ensures forall k :: 0 <= k < |meshes| ==>
        (meshes[k].vertexBuffer != null ==> meshes[k].vertexBuffer.refs == old(meshes[k].vertexBuffer.refs) - 1) &&
        (meshes[k].indexBuffer != null ==> meshes[k].indexBuffer.refs == old(meshes[k].indexBuffer.refs) - 1)
      ensures old(Valid()) ==> forall k :: 0 <= k < |meshes| ==>
        meshes[k].vertexBuffer.refs == framesDrawn * Uses(meshes[k]) &&
        meshes[k].indexBuffer.refs == framesDrawn * Uses(meshes[k])
    {
      ghost var wasValid := Valid();
      DeleteMeshes(meshes);
      if wasValid {
        forall k | 0 <= k < |meshes| {
          TimesIsProduct(framesDrawn, Uses(meshes[k]));
        }
      }
    }
  }

  /** Six bindings laid out as SceneBindings over three distinct meshes draw each mesh
      twice. */
  lemma SceneBoundTwice(bs: seq<Mesh?>, ms: seq<Mesh>)
    requires |bs| == 6 && |ms| == 3 && Distinct(ms)
    requires forall i :: 0 <= i < 6 ==> bs[i] == ms[SceneBindings[i]]
    ensures forall k :: 0 <= k < 3 ==> multiset(bs)[ms[k]] == 2
  {
    assert bs == [ms[0], ms[0], ms[1], ms[2], ms[1], ms[2]];
    DistinctAt(ms, 0, 1);
    DistinctAt(ms, 0, 2);
    DistinctAt(ms, 1, 2);
  }

  /** Construction and Init on a device that accepts every buffer: a drawable scene of
      three meshes and six entities, each mesh drawn by two of them, with nothing drawn
      yet and only the topology call issued. */
  method Start(device: Device) returns (game: Game)
    requires SetupAccepted(device)
    ensures fresh(game) && fresh(game.meshes) && fresh(game.entities)
    ensures forall b :: b in game.AllHandles() ==> b != null && fresh(b)
    ensures |game.meshes| == 3 && |game.entities| == 6 && game.framesDrawn == 0
    ensures game.trace == [IASetPrimitiveTopology(TriangleList)]
    ensures game.Valid()
    ensures forall k :: 0 <= k < 3 ==> game.Uses(game.meshes[k]) == 2
  {
    game := new Game();
    game.Init(device);
    forall i | 0 <= i < 6
      ensures game.MeshBindings()[i] == game.meshes[SceneBindings[i]]
    {
      assert game.entities[0..][i] == game.entities[i];
    }
    SceneBoundTwice(game.MeshBindings(), game.meshes);
  }

  /** Start, one Update and one Draw on a device that accepts every buffer.  The trace
      holds the topology call and one frame of 8 + 5 * 6 calls. */
  method PlayOneFrame(device: Device, math: MathLib, keys: set<char>, view: Float4x4, projection: Float4x4,
                      deltaTime: real, totalTime: real) returns (game: Game)
    requires SetupAccepted(device)
    ensures |game.meshes| == 3 && |game.entities| == 6
    ensures |game.trace| == 1 + 8 + 5 * 6
    ensures game.trace[0] == IASetPrimitiveTopology(TriangleList)
    ensures game.trace[|game.trace| - 1] == Present(0, 0)
    ensures game.framesDrawn == 1 && game.Valid()
  {
    game := Start(device);
    game.Update(math, keys, deltaTime, totalTime);
    ghost var items := game.Items();
    game.Draw(view, projection, deltaTime, totalTime);
    DrawCallsLength(items);
  }

  /** A session that draws no frame: construction, Init, then the destructor.  Each
      buffer the device created is released once and left with no reference, whether or
      not the device refused the others. */
  method StartAndQuit(device: Device) returns (game: Game)
    ensures |game.meshes| == 3
    ensures forall k :: 0 <= k < 3 ==>
      (game.meshes[k].vertexBuffer != null <==> device.accepts(VertexBufferDesc(VertexCounts[k]))) &&
      (game.meshes[k].indexBuffer != null <==> device.accepts(IndexBufferDesc(IndexCounts()[k])))
    ensures forall k :: 0 <= k < 3 ==>
      (game.meshes[k].vertexBuffer != null ==> game.meshes[k].vertexBuffer.refs == 0) &&
      (game.meshes[k].indexBuffer != null ==> game.meshes[k].indexBuffer.refs == 0)
  {
    game := new Game();
    game.Init(device);
    game.Destroy();
  }
}
