/** What one frame of DX11Starter/Game.cpp does, as pure functions: the pulse that drives
    the scale animation, the per-entity motion rules of Update, and the ordered list of
    device calls that Draw issues.  The class in game.dfy is proved against these. */
module FrameSpec {
  import opened DXMath
  import opened Meshes
  import opened Entities
  import opened Seqs

  // ---------------------------------------------------------------- pulse rate

  /** `(long)t`: the cast truncates toward zero, so the whole part lies at or below `t`
      for a non-negative `t` and at or above it for a negative one. */
  function TruncateToLong(t: real): (r: int)
    ensures t >= 0.0 ==> r >= 0 && r as real <= t < r as real + 1.0
    ensures t < 0.0 ==> r <= 0 && r as real - 1.0 < t <= r as real
  {
    if t >= 0.0 then t.Floor else -((-t).Floor)
  }

  /** C++ `/` on integers: the quotient truncates toward zero. */
  function TruncatedQuotient(a: int, b: int): int
    requires b > 0
  {
    if a >= 0 then a / b else -((-a) / b)
  }

  /** C++ `%` on integers: the remainder takes the sign of the dividend, is smaller than
      the divisor in magnitude, and completes the truncating quotient to the dividend. */
  function TruncatedRemainder(a: int, b: int): (r: int)
    requires b > 0
    ensures a >= 0 ==> 0 <= r < b
    ensures a < 0 ==> -b < r <= 0
    ensures a == TruncatedQuotient(a, b) * b + r
  {
    if a >= 0 then
      a % b
    else
      assert -a == ((-a) / b) * b + (-a) % b;
      -((-a) % b)
  }

  /** The LERP rate: the fraction of the current second, counted up in an even second
      and down in an odd one. */
  function PulseRate(totalTime: real): real
  {
    var whole := TruncateToLong(totalTime);
    if TruncatedRemainder(whole, 2) == 0 then totalTime - whole as real
    else 1.0 - (totalTime - whole as real)
  }

  function Frac(t: real): real
  {
    t - t.Floor as real
  }

  /** From time zero on the rate is a triangle wave between 0 and 1. */
  lemma PulseRateTriangle(t: real)
    requires t >= 0.0
    ensures PulseRate(t) == if t.Floor % 2 == 0 then Frac(t) else 1.0 - Frac(t)
    ensures 0.0 <= PulseRate(t) <= 1.0
  {
  }

  /** The wave repeats every two seconds. */
  lemma PulseRatePeriodic(t: real)
    requires t >= 0.0
    ensures PulseRate(t + 2.0) == PulseRate(t)
  {
    var n := t.Floor;
    assert (t + 2.0).Floor == n + 2 by {
      assert (n + 2) as real <= t + 2.0 < (n + 2) as real + 1.0;
    }
    PulseRateTriangle(t);
    PulseRateTriangle(t + 2.0);
  }

  lemma PulseRateAtHalf()
    ensures PulseRate(0.5) == 0.5
  {
    assert (0.5).Floor == 0;
  }

  /** Before time zero the truncating cast and remainder leave [0, 1]: the triangle wave
      needs `totalTime >= 0`. */
  lemma PulseRateNegativeTime()
    ensures PulseRate(-0.5) == -0.5
  {
    assert (0.5).Floor == 0;
  }

  const ScaleMin: Float3 := Uniform(0.75)
  const ScaleMax: Float3 := Uniform(1.25)

  /** XMVectorLerp(scaleMin, scaleMax, rate) for the rate at `totalTime`. */
  function PulseScale(totalTime: real): Float3
  {
    Lerp(ScaleMin, ScaleMax, PulseRate(totalTime))
  }

  lemma PulseScaleBounds(t: real)
    requires t >= 0.0
    ensures PulseScale(t) == Uniform(0.75 + 0.5 * PulseRate(t))
    ensures 0.75 <= PulseScale(t).x <= 1.25
  {
    PulseRateTriangle(t);
  }

  lemma PulseScaleAtHalf()
    ensures PulseScale(0.5) == One
  {
    PulseRateAtHalf();
  }

  // ---------------------------------------------------------------- motion rules

  /** The movement rate of the player-controlled entity. */
  const Speed: real := 5.0

  /** The velocity one held key asks for, or nothing. */
  function KeyStep(keys: set<char>, key: char, v: Float3): seq<Float3>
  {
    if key in keys then [v] else []
  }

  /** The MoveForward velocities of a frame, in the order the keys are checked:
      I (+y), K (-y), L (+x), J (-x), O (+z), U (-z). */
  function KeyVelocities(keys: set<char>, deltaTime: real): seq<Float3>
  {
    KeySteps(keys, Speed * deltaTime)
  }

  /** The velocities of the held keys for a step of `v` along an axis.  `-speed * deltaTime`
      negates the product exactly, in floating point as here. */
  function KeySteps(keys: set<char>, v: real): seq<Float3>
  {
    AxisSteps(keys, 'I', 'K', Float3(0.0, v, 0.0), Float3(0.0, -v, 0.0)) +
    AxisSteps(keys, 'L', 'J', Float3(v, 0.0, 0.0), Float3(-v, 0.0, 0.0)) +
    AxisSteps(keys, 'O', 'U', Float3(0.0, 0.0, v), Float3(0.0, 0.0, -v))
  }

  /** The positive key of an axis is checked first, then the negative one. */
  function AxisSteps(keys: set<char>, positive: char, negative: char, u: Float3, w: Float3): seq<Float3>
  {
    KeyStep(keys, positive, u) + KeyStep(keys, negative, w)
  }

  function Held(keys: set<char>, key: char): nat
  {
    if key in keys then 1 else 0
  }

  /** The net movement along one axis: `amount` for the positive key, minus `amount` for
      the negative one. */
  function Net(keys: set<char>, positive: char, negative: char, amount: real): real
  {
    (if positive in keys then amount else 0.0) - (if negative in keys then amount else 0.0)
  }

  lemma KeyStepSum(keys: set<char>, key: char, v: Float3)
    ensures Sum(KeyStep(keys, key, v)) == if key in keys then v else Zero
  {
    if key in keys {
      assert KeyStep(keys, key, v)[..0] == [];
    }
  }

  /** One MoveForward per held key. */
  lemma KeyVelocitiesCount(keys: set<char>, dt: real)
    ensures |KeyVelocities(keys, dt)| ==
            Held(keys, 'I') + Held(keys, 'K') + Held(keys, 'L') + Held(keys, 'J') + Held(keys, 'O') + Held(keys, 'U')
  {
  }

  /** Opposite keys cancel: along each axis the velocities add up to the net of its two
      keys. */
  lemma KeyVelocitiesSum(keys: set<char>, dt: real)
    ensures Sum(KeyVelocities(keys, dt)) ==
            Float3(Net(keys, 'L', 'J', Speed * dt), Net(keys, 'I', 'K', Speed * dt), Net(keys, 'O', 'U', Speed * dt))
  {
    KeyStepsSum(keys, Speed * dt);
  }

  /** KeyVelocitiesSum for any step length `v`. */
  lemma KeyStepsSum(keys: set<char>, v: real)
    ensures Sum(KeySteps(keys, v)) == Float3(Net(keys, 'L', 'J', v), Net(keys, 'I', 'K', v), Net(keys, 'O', 'U', v))
  {
    var y := AxisSteps(keys, 'I', 'K', Float3(0.0, v, 0.0), Float3(0.0, -v, 0.0));
    var x := AxisSteps(keys, 'L', 'J', Float3(v, 0.0, 0.0), Float3(-v, 0.0, 0.0));
    var z := AxisSteps(keys, 'O', 'U', Float3(0.0, 0.0, v), Float3(0.0, 0.0, -v));
    AxisSumY(keys, v);
    AxisSumX(keys, v);
    AxisSumZ(keys, v);
    SumAppend3(y, x, z);
    AddAxes(Net(keys, 'I', 'K', v), Net(keys, 'L', 'J', v), Net(keys, 'O', 'U', v), Sum(y), Sum(x), Sum(z));
  }

  lemma SumAppend3(a: seq<Float3>, b: seq<Float3>, c: seq<Float3>)
    ensures Sum(a + b + c) == Add(Add(Sum(a), Sum(b)), Sum(c))
  {
    SumAppend(a, b);
    SumAppend(a + b, c);
  }

  /** The keys one at a time, in the order they are checked, give KeyVelocities. */
  lemma KeyVelocitiesInOrder(keys: set<char>, dt: real, speed: real)
    requires speed == Speed
    ensures KeyStep(keys, 'I', Float3(0.0, speed * dt, 0.0)) + KeyStep(keys, 'K', Float3(0.0, -speed * dt, 0.0)) +
            KeyStep(keys, 'L', Float3(speed * dt, 0.0, 0.0)) + KeyStep(keys, 'J', Float3(-speed * dt, 0.0, 0.0)) +
            KeyStep(keys, 'O', Float3(0.0, 0.0, speed * dt)) + KeyStep(keys, 'U', Float3(0.0, 0.0, -speed * dt))
            == KeyVelocities(keys, dt)
  {
  }

  /** The two keys of one axis together. */
  lemma PairSum(keys: set<char>, positive: char, negative: char, u: Float3, w: Float3)
    ensures Sum(AxisSteps(keys, positive, negative, u, w)) ==
            Add(if positive in keys then u else Zero, if negative in keys then w else Zero)
  {
    KeyStepSum(keys, positive, u);
    KeyStepSum(keys, negative, w);
    SumAppend(KeyStep(keys, positive, u), KeyStep(keys, negative, w));
  }

  /** Each axis on its own moves along that axis only, by the net of its two keys. */
  lemma AxisSumY(keys: set<char>, v: real)
    ensures Sum(AxisSteps(keys, 'I', 'K', Float3(0.0, v, 0.0), Float3(0.0, -v, 0.0))) ==
            Float3(0.0, Net(keys, 'I', 'K', v), 0.0)
  {
    PairSum(keys, 'I', 'K', Float3(0.0, v, 0.0), Float3(0.0, -v, 0.0));
  }

  lemma AxisSumX(keys: set<char>, v: real)
    ensures Sum(AxisSteps(keys, 'L', 'J', Float3(v, 0.0, 0.0), Float3(-v, 0.0, 0.0))) ==
            Float3(Net(keys, 'L', 'J', v), 0.0, 0.0)
  {
    PairSum(keys, 'L', 'J', Float3(v, 0.0, 0.0), Float3(-v, 0.0, 0.0));
  }

  lemma AxisSumZ(keys: set<char>, v: real)
    ensures Sum(AxisSteps(keys, 'O', 'U', Float3(0.0, 0.0, v), Float3(0.0, 0.0, -v))) ==
            Float3(0.0, 0.0, Net(keys, 'O', 'U', v))
  {
    PairSum(keys, 'O', 'U', Float3(0.0, 0.0, v), Float3(0.0, 0.0, -v));
  }

  /** Three single-axis vectors add up to the vector of their components. */
  lemma AddAxes(a: real, b: real, c: real, p: Float3, q: Float3, r: Float3)
    requires p == Float3(0.0, a, 0.0) && q == Float3(b, 0.0, 0.0) && r == Float3(0.0, 0.0, c)
    ensures Add(Add(p, q), r) == Float3(b, a, c)
  {
  }

  /** The rotation Update gives entities 1, 4 and 5: entity 1's, turned about z. */
  function Spun(r: Float3, deltaTime: real): Float3
  {
    Float3(r.x, r.y, r.z + 1.0 * deltaTime)
  }

  /** Entity i after the motion rules of one frame, before the entities are updated:
      keys move entity 0, entities 1, 4 and 5 take entity 1's spun rotation, entities 2
      and 3 take the pulse scale, and the others are left alone. */
  function PoseRule(s: seq<EntityState>, i: nat, math: MathLib, keys: set<char>, deltaTime: real, totalTime: real): EntityState
    requires 6 <= |s| && i < |s|
  {
    if i == 0 then MovedForwardAll(s[0], math, KeyVelocities(keys, deltaTime))
    else if i == 1 || i == 4 || i == 5 then s[i].(rotation := Spun(s[1].rotation, deltaTime))
    else if i == 2 || i == 3 then s[i].(scale := PulseScale(totalTime))
    else s[i]
  }

  /** The scene after the motion rules. */
  function Posed(s: seq<EntityState>, math: MathLib, keys: set<char>, deltaTime: real, totalTime: real): seq<EntityState>
    requires |s| >= 6
  {
    seq(|s|, i requires 0 <= i < |s| => PoseRule(s, i, math, keys, deltaTime, totalTime))
  }

  /** The motion rules write entities 0 to 5 one at a time, in the order of Game::Update,
      and leave every other entity as it was. */
  lemma PosedAsUpdates(s: seq<EntityState>, math: MathLib, keys: set<char>, deltaTime: real, totalTime: real)
    requires |s| >= 6
    ensures Posed(s, math, keys, deltaTime, totalTime) ==
      s[0 := MovedForwardAll(s[0], math, KeyVelocities(keys, deltaTime))]
       [1 := s[1].(rotation := Spun(s[1].rotation, deltaTime))]
       [4 := s[4].(rotation := Spun(s[1].rotation, deltaTime))]
       [5 := s[5].(rotation := Spun(s[1].rotation, deltaTime))]
       [2 := s[2].(scale := PulseScale(totalTime))]
       [3 := s[3].(scale := PulseScale(totalTime))]
  {
  }

  /** Update called on every entity. */
  function RefreshedAll(s: seq<EntityState>, math: MathLib): seq<EntityState>
  {
    seq(|s|, i requires 0 <= i < |s| => Refreshed(s[i], math))
  }

  /** One call of Game::Update on the entity states. */
  function FrameUpdate(s: seq<EntityState>, math: MathLib, keys: set<char>, deltaTime: real, totalTime: real): seq<EntityState>
    requires |s| >= 6
  {
    RefreshedAll(Posed(s, math, keys, deltaTime, totalTime), math)
  }

  /** After a frame update every entity keeps its mesh and its world matrix matches the
      pose it has at the end of the frame. */
  lemma FrameUpdateInSync(s: seq<EntityState>, math: MathLib, keys: set<char>, dt: real, t: real)
    requires |s| >= 6
    ensures |FrameUpdate(s, math, keys, dt, t)| == |s|
    ensures forall i :: 0 <= i < |s| ==>
      FrameUpdate(s, math, keys, dt, t)[i].mesh == s[i].mesh && InSync(FrameUpdate(s, math, keys, dt, t)[i], math)
  {
    MovedForwardAllSum(s[0], math, KeyVelocities(keys, dt));
  }

  /** Keys move entity 0 only, and only its position: by the held keys' velocities turned
      by its own rotation. */
  lemma FrameUpdateMovesOnlyEntityZero(s: seq<EntityState>, math: MathLib, keys: set<char>, dt: real, t: real)
    requires |s| >= 6
    ensures forall i :: 1 <= i < |s| ==> FrameUpdate(s, math, keys, dt, t)[i].position == s[i].position
    ensures FrameUpdate(s, math, keys, dt, t)[0].rotation == s[0].rotation
    ensures FrameUpdate(s, math, keys, dt, t)[0].scale == s[0].scale
    ensures FrameUpdate(s, math, keys, dt, t)[0].position ==
      Add(s[0].position, Sum(Turned(math, s[0].rotation, KeyVelocities(keys, dt))))
  {
    MovedForwardAllSum(s[0], math, KeyVelocities(keys, dt));
  }

  /** With entity 0 unrotated and a library whose zero-angle rotation fixes the key
      velocities, the keys move entity 0 by +-Speed * deltaTime along the held axes. */
  lemma FrameUpdateUnrotatedPlayer(s: seq<EntityState>, math: MathLib, keys: set<char>, dt: real, t: real)
    requires |s| >= 6 && s[0].rotation == Zero
    requires forall v :: v in KeyVelocities(keys, dt) ==> math.ZeroAnglesFix(v)
    ensures FrameUpdate(s, math, keys, dt, t)[0].position ==
      Add(s[0].position,
          Float3(Net(keys, 'L', 'J', Speed * dt), Net(keys, 'I', 'K', Speed * dt), Net(keys, 'O', 'U', Speed * dt)))
  {
    var vs := KeyVelocities(keys, dt);
    assert forall i :: 0 <= i < |vs| ==> math.ZeroAnglesFix(vs[i]) by {
      forall i | 0 <= i < |vs| ensures math.ZeroAnglesFix(vs[i]) {
        assert vs[i] in vs;
      }
    }
    MovedForwardAllUnrotated(s[0], math, vs);
    KeyVelocitiesSum(keys, dt);
  }

  /** Entities 1, 4 and 5 share one rotation, entity 1's with z advanced by deltaTime; no
      other entity's rotation changes. */
  lemma FrameUpdateSpin(s: seq<EntityState>, math: MathLib, keys: set<char>, dt: real, t: real)
    requires |s| >= 6
    ensures var r := FrameUpdate(s, math, keys, dt, t);
      r[1].rotation == r[4].rotation == r[5].rotation &&
      r[1].rotation == Float3(s[1].rotation.x, s[1].rotation.y, s[1].rotation.z + dt)
    ensures forall i :: 0 <= i < |s| && i != 1 && i != 4 && i != 5 ==>
      FrameUpdate(s, math, keys, dt, t)[i].rotation == s[i].rotation
  {
    MovedForwardAllSum(s[0], math, KeyVelocities(keys, dt));
  }

  /** Entities 2 and 3 share the pulse scale, uniform and within [0.75, 1.25] from time zero
      on; no other entity's scale changes. */
  lemma FrameUpdatePulse(s: seq<EntityState>, math: MathLib, keys: set<char>, dt: real, t: real)
    requires |s| >= 6 && t >= 0.0
    ensures var r := FrameUpdate(s, math, keys, dt, t);
      r[2].scale == r[3].scale == Uniform(0.75 + 0.5 * PulseRate(t)) &&
      0.75 <= r[2].scale.x <= 1.25
    ensures forall i :: 0 <= i < |s| && i != 2 && i != 3 ==>
      FrameUpdate(s, math, keys, dt, t)[i].scale == s[i].scale
  {
    MovedForwardAllSum(s[0], math, KeyVelocities(keys, dt));
    PulseScaleBounds(t);
  }

  // ---------------------------------------------------------------- draw trace

  datatype IndexFormat = R32Uint
  datatype Topology = TriangleList

  /** One call on the device context, the swap chain or a shader wrapper. */
  datatype Event =
    | ClearRenderTargetView(color: Float4)
    | ClearDepthStencilView(clearDepth: bool, clearStencil: bool, depth: real, stencil: int)
    | SetMatrix4x4(name: string, value: Float4x4)
    | CopyAllBufferData
    | SetVertexShader
    | SetPixelShader
    | IASetVertexBuffers(vertexBuffer: Buffer?, stride: nat, offset: nat)
    | IASetIndexBuffer(indexBuffer: Buffer?, format: IndexFormat, offset: nat)
    | DrawIndexed(indexCount: nat, startIndex: nat, baseVertex: int)
    | Present(syncInterval: nat, flags: nat)
    | IASetPrimitiveTopology(topology: Topology)

  /** What Draw reads of one entity: its world matrix and its mesh's handles and count. */
  datatype DrawItem = DrawItem(world: Float4x4, vertexBuffer: Buffer?, indexBuffer: Buffer?, indexCount: int)

  const CornflowerBlue: Float4 := Float4(0.4, 0.6, 0.75, 0.0)

  /** The once-per-frame calls before the first entity. */
  function Prologue(view: Float4x4, projection: Float4x4): seq<Event>
  {
    [ClearRenderTargetView(CornflowerBlue),
     ClearDepthStencilView(true, true, 1.0, 0),
     SetMatrix4x4("view", view),
     SetMatrix4x4("projection", projection),
     CopyAllBufferData,
     SetVertexShader,
     SetPixelShader]
  }

  /** The calls for one entity.  DrawIndexed takes a UINT, so the int count is converted. */
  function ObjectCalls(item: DrawItem): seq<Event>
  {
    [SetMatrix4x4("world", Transpose(item.world)),
     CopyAllBufferData,
     IASetVertexBuffers(item.vertexBuffer, VertexStride, 0),
     IASetIndexBuffer(item.indexBuffer, R32Uint, 0),
     DrawIndexed(item.indexCount % UintRange, 0, 0)]
  }

  function DrawCalls(items: seq<DrawItem>): seq<Event>
  {
    if items == [] then [] else DrawCalls(items[..|items| - 1]) + ObjectCalls(items[|items| - 1])
  }

  /** Drawing one more entity appends its five calls. */
  lemma DrawCallsSnoc(items: seq<DrawItem>, i: nat)
    requires i < |items|
    ensures DrawCalls(items[..i + 1]) == DrawCalls(items[..i]) + ObjectCalls(items[i])
  {
    assert items[..i + 1][..i] == items[..i];
  }

  /** The calls of one Draw. */
  function FrameTrace(view: Float4x4, projection: Float4x4, items: seq<DrawItem>): seq<Event>
  {
    Prologue(view, projection) + DrawCalls(items) + [Present(0, 0)]
  }

  lemma {:induction false} DrawCallsLength(items: seq<DrawItem>)
    ensures |DrawCalls(items)| == 5 * |items|
    decreases |items|
  {
    if items != [] {
      DrawCallsLength(items[..|items| - 1]);
    }
  }

  /** Entity k's five calls sit at positions 5k .. 5k + 4 of the per-entity part. */
  lemma {:induction false} DrawCallsAt(items: seq<DrawItem>, k: nat)
    requires k < |items|
    ensures |DrawCalls(items)| == 5 * |items|
    ensures DrawCalls(items)[5 * k .. 5 * k + 5] == ObjectCalls(items[k])
    decreases |items|
  {
    var n := |items| - 1;
    var front := items[..n];
    DrawCallsLength(front);
    DrawCallsLength(items);
    if k < n {
      DrawCallsAt(front, k);
      assert DrawCalls(items)[5 * k .. 5 * k + 5] == DrawCalls(front)[5 * k .. 5 * k + 5];
    } else {
      assert DrawCalls(items)[5 * k .. 5 * k + 5] == ObjectCalls(items[n]);
    }
  }

  /** The frame opens with the two clears and the view/projection upload, draws entity k
      with its transposed world matrix, its own buffers and its own index count, and ends
      with Present. */
  lemma FrameTraceOrder(view: Float4x4, projection: Float4x4, items: seq<DrawItem>, k: nat)
    requires k < |items|
    ensures var t := FrameTrace(view, projection, items);
      |t| == 8 + 5 * |items| &&
      t[0] == ClearRenderTargetView(CornflowerBlue) &&
      t[1] == ClearDepthStencilView(true, true, 1.0, 0) &&
      t[2] == SetMatrix4x4("view", view) &&
      t[3] == SetMatrix4x4("projection", projection) &&
      t[7 + 5 * k] == SetMatrix4x4("world", Transpose(items[k].world)) &&
      t[9 + 5 * k] == IASetVertexBuffers(items[k].vertexBuffer, VertexStride, 0) &&
      t[10 + 5 * k] == IASetIndexBuffer(items[k].indexBuffer, R32Uint, 0) &&
      t[11 + 5 * k] == DrawIndexed(items[k].indexCount % UintRange, 0, 0) &&
      t[|t| - 1] == Present(0, 0)
  {
    DrawCallsAt(items, k);
    var t := FrameTrace(view, projection, items);
    var d := DrawCalls(items);
    assert t[7 + 5 * k .. 12 + 5 * k] == d[5 * k .. 5 * k + 5];
  }

  /** A frame with no entities still clears and presents. */
  lemma FrameTraceEmptyScene(view: Float4x4, projection: Float4x4)
    ensures FrameTrace(view, projection, []) == Prologue(view, projection) + [Present(0, 0)]
  {
  }

  predicate IsPresent(e: Event) { e.Present? }
  predicate IsClearTarget(e: Event) { e.ClearRenderTargetView? }
  predicate IsClearDepth(e: Event) { e.ClearDepthStencilView? }
  predicate IsViewUpload(e: Event) { e.SetMatrix4x4? && e.name == "view" }
  predicate IsProjectionUpload(e: Event) { e.SetMatrix4x4? && e.name == "projection" }
  predicate IsWorldUpload(e: Event) { e.SetMatrix4x4? && e.name == "world" }
  predicate IsDraw(e: Event) { e.DrawIndexed? }

  lemma CountFive(a: Event, b: Event, c: Event, d: Event, e: Event, p: Event -> bool)
    ensures Count([a, b, c, d, e], p) ==
      (if p(a) then 1 else 0) + (if p(b) then 1 else 0) + (if p(c) then 1 else 0) +
      (if p(d) then 1 else 0) + (if p(e) then 1 else 0)
  {
    assert [a, b, c, d, e] == [a] + [b] + [c] + [d] + [e];
    CountSingle(a, p); CountSingle(b, p); CountSingle(c, p); CountSingle(d, p); CountSingle(e, p);
    CountAppend([a], [b], p);
    CountAppend([a] + [b], [c], p);
    CountAppend([a] + [b] + [c], [d], p);
    CountAppend([a] + [b] + [c] + [d], [e], p);
  }

  /** Each entity contributes the same number of calls of a kind. */
  lemma {:induction false} DrawCallsCount(items: seq<DrawItem>, p: Event -> bool, c: nat)
    requires forall it :: Count(ObjectCalls(it), p) == c
    ensures Count(DrawCalls(items), p) == c * |items|
    decreases |items|
  {
    if items != [] {
      var n := |items| - 1;
      DrawCallsCount(items[..n], p, c);
      CountAppend(DrawCalls(items[..n]), ObjectCalls(items[n]), p);
    }
  }

  lemma FrameTraceCount(view: Float4x4, projection: Float4x4, items: seq<DrawItem>, p: Event -> bool, c: nat)
    requires forall it :: Count(ObjectCalls(it), p) == c
    ensures Count(FrameTrace(view, projection, items), p) ==
            Count(Prologue(view, projection), p) + c * |items| + (if p(Present(0, 0)) then 1 else 0)
  {
    DrawCallsCount(items, p, c);
    CountAppend(Prologue(view, projection), DrawCalls(items), p);
    CountAppend(Prologue(view, projection) + DrawCalls(items), [Present(0, 0)], p);
    CountSingle(Present(0, 0), p);
  }

  function Hit(p: Event -> bool, e: Event): nat
  {
    if p(e) then 1 else 0
  }

  lemma ObjectCallsCount(item: DrawItem, p: Event -> bool)
    ensures var o := ObjectCalls(item);
      Count(o, p) == Hit(p, o[0]) + Hit(p, o[1]) + Hit(p, o[2]) + Hit(p, o[3]) + Hit(p, o[4])
  {
    var o := ObjectCalls(item);
    assert o == [o[0], o[1], o[2], o[3], o[4]];
    CountFive(o[0], o[1], o[2], o[3], o[4], p);
  }

  lemma PrologueCount(view: Float4x4, projection: Float4x4, p: Event -> bool)
    ensures var o := Prologue(view, projection);
      Count(o, p) == Hit(p, o[0]) + Hit(p, o[1]) + Hit(p, o[2]) + Hit(p, o[3]) + Hit(p, o[4]) +
                     Hit(p, o[5]) + Hit(p, o[6])
  {
    var o := Prologue(view, projection);
    var a := [o[0], o[1]];
    var b := [o[2], o[3], o[4], o[5], o[6]];
    assert o == a + b;
    assert a == [o[0]] + [o[1]];
    CountAppend(a, b, p);
    CountAppend([o[0]], [o[1]], p);
    CountSingle(o[0], p);
    CountSingle(o[1], p);
    CountFive(o[2], o[3], o[4], o[5], o[6], p);
  }

  /** Per frame, one Present. */
  lemma PresentOnce(view: Float4x4, projection: Float4x4, items: seq<DrawItem>)
    ensures Count(FrameTrace(view, projection, items), IsPresent) == 1
  {
    forall it ensures Count(ObjectCalls(it), IsPresent) == 0 { ObjectCallsCount(it, IsPresent); }
    PrologueCount(view, projection, IsPresent);
    FrameTraceCount(view, projection, items, IsPresent, 0);
  }

  /** Per frame, one clear of the render target. */
  lemma ClearTargetOnce(view: Float4x4, projection: Float4x4, items: seq<DrawItem>)
    ensures Count(FrameTrace(view, projection, items), IsClearTarget) == 1
  {
    forall it ensures Count(ObjectCalls(it), IsClearTarget) == 0 { ObjectCallsCount(it, IsClearTarget); }
    PrologueCount(view, projection, IsClearTarget);
    FrameTraceCount(view, projection, items, IsClearTarget, 0);
  }

  /** Per frame, one clear of the depth buffer. */
  lemma ClearDepthOnce(view: Float4x4, projection: Float4x4, items: seq<DrawItem>)
    ensures Count(FrameTrace(view, projection, items), IsClearDepth) == 1
  {
    forall it ensures Count(ObjectCalls(it), IsClearDepth) == 0 { ObjectCallsCount(it, IsClearDepth); }
    PrologueCount(view, projection, IsClearDepth);
    FrameTraceCount(view, projection, items, IsClearDepth, 0);
  }

  /** Per frame, one upload of the view matrix. */
  lemma ViewUploadOnce(view: Float4x4, projection: Float4x4, items: seq<DrawItem>)
    ensures Count(FrameTrace(view, projection, items), IsViewUpload) == 1
  {
    forall it ensures Count(ObjectCalls(it), IsViewUpload) == 0 { ObjectCallsCount(it, IsViewUpload); }
    PrologueCount(view, projection, IsViewUpload);
    FrameTraceCount(view, projection, items, IsViewUpload, 0);
  }

  /** Per frame, one upload of the projection matrix. */
  lemma ProjectionUploadOnce(view: Float4x4, projection: Float4x4, items: seq<DrawItem>)
    ensures Count(FrameTrace(view, projection, items), IsProjectionUpload) == 1
  {
    forall it ensures Count(ObjectCalls(it), IsProjectionUpload) == 0 { ObjectCallsCount(it, IsProjectionUpload); }
    PrologueCount(view, projection, IsProjectionUpload);
    FrameTraceCount(view, projection, items, IsProjectionUpload, 0);
  }

  /** Per frame, whatever the number of entities: one Present, one clear of each target,
      one view and one projection upload. */
  lemma FrameTraceOnce(view: Float4x4, projection: Float4x4, items: seq<DrawItem>)
    ensures Count(FrameTrace(view, projection, items), IsPresent) == 1
    ensures Count(FrameTrace(view, projection, items), IsClearTarget) == 1
    ensures Count(FrameTrace(view, projection, items), IsClearDepth) == 1
    ensures Count(FrameTrace(view, projection, items), IsViewUpload) == 1
    ensures Count(FrameTrace(view, projection, items), IsProjectionUpload) == 1
  {
    PresentOnce(view, projection, items);
    ClearTargetOnce(view, projection, items);
    ClearDepthOnce(view, projection, items);
    ViewUploadOnce(view, projection, items);
    ProjectionUploadOnce(view, projection, items);
  }

  /** Per entity: one world-matrix upload and one indexed draw. */
  lemma FrameTracePerEntity(view: Float4x4, projection: Float4x4, items: seq<DrawItem>)
    ensures Count(FrameTrace(view, projection, items), IsWorldUpload) == |items|
    ensures Count(FrameTrace(view, projection, items), IsDraw) == |items|
  {
    forall it ensures Count(ObjectCalls(it), IsWorldUpload) == 1 { ObjectCallsCount(it, IsWorldUpload); }
    PrologueCount(view, projection, IsWorldUpload);
    FrameTraceCount(view, projection, items, IsWorldUpload, 1);

    forall it ensures Count(ObjectCalls(it), IsDraw) == 1 { ObjectCallsCount(it, IsDraw); }
    PrologueCount(view, projection, IsDraw);
    FrameTraceCount(view, projection, items, IsDraw, 1);
  }

  // ---------------------------------------------------------------- scene setup

  /** The index arrays of the three meshes; their lengths are the index counts. */
  const Indices1: seq<nat> := [0, 1, 2]
  const Indices2: seq<nat> := [0, 1, 2, 0, 3, 1]
  const Indices3: seq<nat> := [0, 1, 2, 3, 0, 2]
  /** The lengths of the three vertex arrays. */
  const VertexCounts: seq<nat> := [3, 4, 4]
  function IndexCounts(): seq<nat> { [|Indices1|, |Indices2|, |Indices3|] }
  /** Entity i is created on mesh SceneBindings[i]. */
  const SceneBindings: seq<nat> := [0, 0, 1, 2, 1, 2]

  /** The device accepts all six buffers the scene asks for. */
  predicate SetupAccepted(device: Device)
  {
    forall k :: 0 <= k < 3 ==>
      device.accepts(VertexBufferDesc(VertexCounts[k])) && device.accepts(IndexBufferDesc(IndexCounts()[k]))
  }

  /** Three meshes of 3, 6 and 6 indices, none so large that a buffer width wraps: the
      vertex buffers take 96, 128 and 128 bytes and the index buffers 12, 24 and 24. */
  lemma SceneShape()
    ensures IndexCounts() == [3, 6, 6]
    ensures forall k :: 0 <= k < 3 ==> VertexBufferDesc(VertexCounts[k]).byteWidth == VertexStride * VertexCounts[k]
    ensures forall k :: 0 <= k < 3 ==> IndexBufferDesc(IndexCounts()[k]).byteWidth == IndexStride * IndexCounts()[k]
    ensures [VertexBufferDesc(3).byteWidth, VertexBufferDesc(4).byteWidth] == [96, 128]
    ensures [IndexBufferDesc(3).byteWidth, IndexBufferDesc(6).byteWidth] == [12, 24]
  {
    forall k | 0 <= k < 3
      ensures VertexBufferDesc(VertexCounts[k]).byteWidth == VertexStride * VertexCounts[k]
      ensures IndexBufferDesc(IndexCounts()[k]).byteWidth == IndexStride * IndexCounts()[k]
    {
      assert VertexCounts[k] <= 4 && IndexCounts()[k] <= 6;
    }
  }

  /** Every mesh of the scene is bound to exactly two entities. */
  lemma SceneUses()
    ensures forall k :: 0 <= k < 3 ==> multiset(SceneBindings)[k] == 2
  {
    assert multiset(SceneBindings) == multiset{0, 0, 1, 1, 2, 2};
  }
}
