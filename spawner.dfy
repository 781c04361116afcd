/**
 * The spawner: the one tracked preview ball, the `mousemove` and
 * `mousedown` handlers that move and drop it, and the start-up scene.
 *
 * `State` is the whole game state as a value: the scene of bodies and the
 * id of the tracked `previewBall` (`None` for `null`). The functions here
 * specify the handlers; `Game.MergeGame` runs them on mutable fields.
 */
module Spawner {
  import opened Wrappers
  import opened Balls
  import opened Merge

  /** The width of the play area (`render.options.width`). */
  const Width: real := 600.0
  /** `fixedYPosition`: the height of the drop line. */
  const FixedY: real := 50.0
  /** `initialXPosition`: the centre of the play area. */
  const InitialX: real := Width / 2.0

  datatype State = State(scene: Scene, preview: Option<BodyId>)

  /** The scene is valid and a tracked preview, if any, is a known body. */
  predicate ValidState(g: State) {
    ValidScene(g.scene) && (g.preview.Some? ==> g.preview.value in g.scene.bodies)
  }

  /** The tracked preview of a state that has one. */
  function PreviewBody(g: State): Body
    requires ValidState(g) && g.preview.Some?
  {
    g.scene.bodies[g.preview.value]
  }

  /**
   * The invariant the handlers keep once the game has started: every
   * tagged body is a well-formed ball, exactly one ball is tracked as the
   * preview, a static ball of some tier, and every other ball is dynamic.
   */
  predicate Invariant(g: State) {
    && ValidState(g)
    && WellFormed(g.scene)
    && g.preview.Some?
    && Tagged(PreviewBody(g))
    && PreviewBody(g).isStatic
    && OnlyPreviewStatic(g)
  }

  /** Every ball other than the tracked preview is dynamic. */
  predicate OnlyPreviewStatic(g: State) {
    forall id :: id in g.scene.bodies && Tagged(g.scene.bodies[id]) && Some(id) != g.preview ==>
      !g.scene.bodies[id].isStatic
  }

  /**
   * Start-up: ground, left wall and right wall, then a static preview of
   * the first tier at the centre of the drop line.
   */
  function Setup(): (g: State)
    ensures ValidState(g) && g.preview == Some(3) && g.scene.world == {0, 1, 2, 3}
    ensures Tagged(PreviewBody(g)) && PreviewBody(g).isStatic
    ensures forall id :: id in g.scene.bodies && id != 3 ==> !Tagged(g.scene.bodies[id])
  {
    var t := BallTypes[0];
    var preview := CreateBall(InitialX, FixedY, t.size as real, t).(isStatic := true);
    State(
      Scene(map[0 := Boundary(300.0, 390.0), 1 := Boundary(10.0, 200.0),
                2 := Boundary(590.0, 200.0), 3 := preview],
            {0, 1, 2, 3}, 4),
      Some(3))
  }

  /** `mousemove`: the preview, if any, goes to (mouseX, fixedYPosition). */
  function MouseMove(g: State, mouseX: real): (r: State)
    requires ValidState(g)
    ensures ValidState(r) && r.preview == g.preview
    ensures r.scene.world == g.scene.world && r.scene.nextId == g.scene.nextId
    ensures r.scene.bodies.Keys == g.scene.bodies.Keys
    ensures g.preview.Some? ==> PreviewBody(r).x == mouseX && PreviewBody(r).y == FixedY
  {
    match g.preview
    case None => g
    case Some(id) =>
      var b := g.scene.bodies[id];
      g.(scene := g.scene.(bodies := g.scene.bodies[id := b.(x := mouseX, y := FixedY)]))
  }

  /** The preview a draw u of `Math.random()` selects, static, at the centre of the drop line. */
  function NewPreview(u: real): (b: Body)
    requires 0.0 <= u < 1.0
    ensures Tagged(b) && TierIndex(b) == RandomTypeIndex(u) && IsTierBall(b)
    ensures b.isStatic && b.x == InitialX && b.y == FixedY
  {
    var t := BallTypes[RandomTypeIndex(u)];
    CreatedBallHasTier(InitialX, FixedY, RandomTypeIndex(u));
    CreateBall(InitialX, FixedY, t.size as real, t).(isStatic := true)
  }

  /**
   * `mousedown`: a tracked preview is made dynamic and placed at
   * (mouseX, fixedYPosition); then, whether or not there was one, a new
   * static preview of the drawn tier is added to the world and tracked.
   */
  function MouseDown(g: State, mouseX: real, u: real): (r: State)
    requires ValidState(g) && 0.0 <= u < 1.0
    ensures ValidState(r) && g.scene.nextId !in g.scene.bodies
    ensures r.preview == Some(g.scene.nextId)
    ensures r.scene.world == g.scene.world + {g.scene.nextId}
    ensures PreviewBody(r) == NewPreview(u)
  {
    var n := g.scene.nextId;
    State(Scene(Released(g, mouseX)[n := NewPreview(u)], g.scene.world + {n}, n + 1), Some(n))
  }

  /** The bodies once a tracked preview has been made dynamic and placed at (mouseX, fixedYPosition). */
  function Released(g: State, mouseX: real): (m: map<BodyId, Body>)
    requires ValidState(g)
    ensures m.Keys == g.scene.bodies.Keys
    ensures forall id :: id in m && Some(id) != g.preview ==> m[id] == g.scene.bodies[id]
    ensures g.preview.Some? ==>
      var before, after := PreviewBody(g), m[g.preview.value];
      && !after.isStatic && after.x == mouseX && after.y == FixedY
      && after.ballType == before.ballType && after.radius == before.radius
  {
    match g.preview
    case None => g.scene.bodies
    case Some(id) =>
      g.scene.bodies[id := g.scene.bodies[id].(isStatic := false).(x := mouseX, y := FixedY)]
  }

  /** `collisionStart`: the batch resolves on the scene; the tracked preview id is kept. */
  function CollisionStart(g: State, ps: seq<Pair>): (r: State)
    requires ValidState(g) && AllKnown(g.scene, ps)
    ensures ValidState(r) && r.preview == g.preview
    ensures g.preview.Some? ==> PreviewBody(r) == PreviewBody(g)
  {
    g.(scene := ResolvePairs(g.scene, ps))
  }

  /**
   * The start-up world holds exactly the three boundaries and one ball, the
   * tracked preview: first tier, radius 10, static, at (300, 50).
   */
  lemma SetupFacts()
    ensures Invariant(Setup())
    ensures var g := Setup();
      && |g.scene.world| == 4
      && BallIds(g.scene) == {3}
      && (forall id :: id in g.scene.world && id != 3 ==> !Tagged(g.scene.bodies[id]))
      && g.preview == Some(3)
      && TierIndex(PreviewBody(g)) == 0
      && PreviewBody(g).radius == Some(10.0)
      && PreviewBody(g).isStatic
      && PreviewBody(g).x == 300.0 && PreviewBody(g).y == 50.0
  {
    var g := Setup();
    TierNamesResolve(0);
    assert g.scene.world == {0, 1, 2, 3};
    assert |{0, 1, 2, 3}| == 4 by {
      assert {0, 1, 2, 3} == {0, 1, 2} + {3};
      assert {0, 1, 2} == {0, 1} + {2};
    }
    assert BallIds(g.scene) == {3} by {
      forall id | id in BallIds(g.scene) ensures id == 3 {
      }
    }
  }

  /**
   * `mousemove` with a preview changes only that body's position, to
   * (mouseX, 50), keeping its tier, radius, colour and static flag; with no
   * preview it changes nothing.
   */
  lemma MouseMoveEffect(g: State, mouseX: real)
    requires ValidState(g)
    ensures g.preview.None? ==> MouseMove(g, mouseX) == g
    ensures var r := MouseMove(g, mouseX);
      && ValidState(r)
      && r.preview == g.preview
      && r.scene.world == g.scene.world
      && r.scene.nextId == g.scene.nextId
      && r.scene.bodies.Keys == g.scene.bodies.Keys
      && (forall id :: id in g.scene.bodies && Some(id) != g.preview ==>
            r.scene.bodies[id] == g.scene.bodies[id])
      && (g.preview.Some? ==>
            var before, after := PreviewBody(g), PreviewBody(r);
            && after.x == mouseX && after.y == 50.0
            && after.ballType == before.ballType && after.radius == before.radius
            && after.fill == before.fill && after.isStatic == before.isStatic)
  {
  }

  /** Only the last pointer position counts: two moves are one move to the second position. */
  lemma MouseMoveLastWins(g: State, x1: real, x2: real)
    requires ValidState(g)
    ensures ValidState(MouseMove(g, x1))
    ensures MouseMove(MouseMove(g, x1), x2) == MouseMove(g, x2)
  {
    MouseMoveEffect(g, x1);
    if g.preview.Some? {
      var id := g.preview.value;
      assert MouseMove(g, x1).scene.bodies[id := g.scene.bodies[id].(x := x2, y := FixedY)]
          == g.scene.bodies[id := g.scene.bodies[id].(x := x2, y := FixedY)];
    }
  }

  /**
   * `mousedown` releases the old preview (dynamic, at (mouseX, 50), tier and
   * radius kept), adds exactly one fresh body to the world, the new static
   * preview of tier floor(6u) with that tier's radius at (300, 50), and
   * changes no other body.
   */
  lemma MouseDownEffect(g: State, mouseX: real, u: real)
    requires ValidState(g) && 0.0 <= u < 1.0
    ensures var r := MouseDown(g, mouseX, u); var n := g.scene.nextId;
      && ValidState(r)
      && n !in g.scene.bodies
      && r.preview == Some(n)
      && r.scene.world == g.scene.world + {n}
      && |r.scene.world| == |g.scene.world| + 1
      && r.scene.bodies.Keys == g.scene.bodies.Keys + {n}
      && (forall id :: id in g.scene.bodies && Some(id) != g.preview ==>
            r.scene.bodies[id] == g.scene.bodies[id])
      && (g.preview.Some? ==>
            var before, after := PreviewBody(g), r.scene.bodies[g.preview.value];
            && !after.isStatic && after.x == mouseX && after.y == 50.0
            && after.ballType == before.ballType && after.radius == before.radius
            && after.fill == before.fill)
      && Tagged(PreviewBody(r))
      && TierIndex(PreviewBody(r)) == RandomTypeIndex(u)
      && PreviewBody(r).radius == Some(BallTypes[RandomTypeIndex(u)].size as real)
      && PreviewBody(r).isStatic
      && PreviewBody(r).x == 300.0 && PreviewBody(r).y == 50.0
  {
    TierNamesResolve(RandomTypeIndex(u));
  }

  /** `mousedown` adds exactly one ball to the world's balls. */
  lemma MouseDownAddsOneBall(g: State, mouseX: real, u: real)
    requires ValidState(g) && 0.0 <= u < 1.0
    ensures ValidScene(MouseDown(g, mouseX, u).scene)
    ensures BallIds(MouseDown(g, mouseX, u).scene) == BallIds(g.scene) + {g.scene.nextId}
    ensures |BallIds(MouseDown(g, mouseX, u).scene)| == |BallIds(g.scene)| + 1
  {
    var r := MouseDown(g, mouseX, u);
    var n := g.scene.nextId;
    MouseDownEffect(g, mouseX, u);
    forall id ensures id in BallIds(r.scene) <==> id in BallIds(g.scene) + {n} {
      if id in g.scene.world && Some(id) != g.preview {
        assert r.scene.bodies[id] == g.scene.bodies[id];
      }
    }
    assert BallIds(r.scene) == BallIds(g.scene) + {n};
    assert n !in BallIds(g.scene);
  }

  /** `mousemove` keeps the invariant. */
  lemma MouseMoveKeepsInvariant(g: State, mouseX: real)
    requires Invariant(g)
    ensures Invariant(MouseMove(g, mouseX))
  {
    MouseMoveEffect(g, mouseX);
    var mv := MouseMove(g, mouseX);
    forall id | id in mv.scene.bodies && Tagged(mv.scene.bodies[id])
      ensures IsTierBall(mv.scene.bodies[id])
      ensures Some(id) != mv.preview ==> !mv.scene.bodies[id].isStatic
    {
      assert mv.scene.bodies[id].ballType == g.scene.bodies[id].ballType;
    }
  }

  /** `mousedown` keeps the invariant: the released preview becomes an ordinary dynamic ball. */
  lemma MouseDownKeepsInvariant(g: State, mouseX: real, u: real)
    requires Invariant(g) && 0.0 <= u < 1.0
    ensures Invariant(MouseDown(g, mouseX, u))
  {
    MouseDownEffect(g, mouseX, u);
    var dn := MouseDown(g, mouseX, u);
    forall id | id in dn.scene.bodies && Tagged(dn.scene.bodies[id])
      ensures IsTierBall(dn.scene.bodies[id])
      ensures Some(id) != dn.preview ==> !dn.scene.bodies[id].isStatic
    {
      if id != g.scene.nextId {
        assert dn.scene.bodies[id].ballType == g.scene.bodies[id].ballType;
      }
    }
  }

  /** `collisionStart` keeps the invariant: merged balls are dynamic and the preview's record is kept. */
  lemma CollisionStartKeepsInvariant(g: State, ps: seq<Pair>)
    requires Invariant(g) && AllKnown(g.scene, ps)
    ensures Invariant(CollisionStart(g, ps))
  {
    ResolvePairsPreserves(g.scene, ps);
    BatchAddsDynamicBalls(g.scene, ps);
  }

  /** The start-up state meets the invariant, and every handler keeps it. */
  lemma InvariantPreserved(g: State, mouseX: real, u: real, ps: seq<Pair>)
    requires Invariant(g) && 0.0 <= u < 1.0 && AllKnown(g.scene, ps)
    ensures Invariant(Setup())
    ensures Invariant(MouseMove(g, mouseX))
    ensures Invariant(MouseDown(g, mouseX, u))
    ensures Invariant(CollisionStart(g, ps))
  {
    SetupFacts();
    MouseMoveKeepsInvariant(g, mouseX);
    MouseDownKeepsInvariant(g, mouseX, u);
    CollisionStartKeepsInvariant(g, ps);
  }
}
