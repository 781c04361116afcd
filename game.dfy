/**
 * The game's global state as one object: the world's bodies, world
 * membership, the engine's id counter and the tracked `previewBall`,
 * with the event handlers as methods that update them in place. Each
 * method is proved against the function in `Spawner` that specifies it.
 */
module Game {
  import opened Wrappers
  import opened Balls
  import opened Merge
  import Spawner

  class MergeGame {
    /** Every body created so far, by id; a removed body keeps its record. */
    var bodies: map<BodyId, Body>
    /** The ids of the bodies in the physics world. */
    var world: set<BodyId>
    /** The id the engine gives the next body it creates. */
    var nextId: BodyId
    /** `previewBall`, `None` standing for `null`. */
    var previewBall: Option<BodyId>

    function Scene(): Merge.Scene
      reads this
    {
      Merge.Scene(bodies, world, nextId)
    }

    function State(): Spawner.State
      reads this
    {
      Spawner.State(Scene(), previewBall)
    }

    predicate Valid()
      reads this
    {
      Spawner.Invariant(State())
    }

    /** `World.add` of a new body: it gets the next id and joins the world. */
    method Add(b: Body) returns (id: BodyId)
      requires ValidScene(Scene())
      modifies this
      ensures id == old(nextId) && id !in old(bodies)
      ensures bodies == old(bodies)[id := b] && world == old(world) + {id}
      ensures nextId == id + 1 && previewBall == old(previewBall)
      ensures ValidScene(Scene())
    {
      id := nextId;
      bodies := bodies[id := b];
      world := world + {id};
      nextId := nextId + 1;
    }

    /** `World.remove`: the body leaves the world; removing an absent body does nothing. */
    method Remove(id: BodyId)
      modifies this
      ensures world == old(world) - {id}
      ensures bodies == old(bodies) && nextId == old(nextId) && previewBall == old(previewBall)
    {
      world := world - {id};
    }

    /** `Matter.Body.setPosition`. */
    method SetPosition(id: BodyId, x: real, y: real)
      requires id in bodies
      modifies this
      ensures bodies == old(bodies)[id := old(bodies)[id].(x := x, y := y)]
      ensures world == old(world) && nextId == old(nextId) && previewBall == old(previewBall)
    {
      bodies := bodies[id := bodies[id].(x := x, y := y)];
    }

    /** `Matter.Body.setStatic`. */
    method SetStatic(id: BodyId, flag: bool)
      requires id in bodies
      modifies this
      ensures bodies == old(bodies)[id := old(bodies)[id].(isStatic := flag)]
      ensures world == old(world) && nextId == old(nextId) && previewBall == old(previewBall)
    {
      bodies := bodies[id := bodies[id].(isStatic := flag)];
    }

    /** Start-up: the three boundaries, then the first-tier static preview. */
    constructor ()
      ensures Valid() && State() == Spawner.Setup()
    {
      bodies, world, nextId, previewBall := map[], {}, 0, None;
      new;
      var ground := Add(Boundary(300.0, 390.0));
      var leftWall := Add(Boundary(10.0, 200.0));
      var rightWall := Add(Boundary(590.0, 200.0));
      var typeIndex := 0;
      var ballType := BallTypes[typeIndex];
      var ball := CreateBall(Spawner.InitialX, Spawner.FixedY, ballType.size as real, ballType);
      ball := ball.(isStatic := true);
      var id := Add(ball);
      previewBall := Some(id);
      assert ground == 0 && leftWall == 1 && rightWall == 2 && id == 3;
      assert bodies == Spawner.Setup().scene.bodies;
      assert world == {0, 1, 2, 3};
      Spawner.SetupFacts();
    }

    /** The `forEach` callback of `collisionStart`: one colliding pair. */
    method ResolveCollision(pair: Pair)
      requires ValidScene(Scene()) && PairKnown(Scene(), pair)
      modifies this
      ensures Scene() == ResolvePair(old(Scene()), pair)
      ensures previewBall == old(previewBall)
    {
      var bodyA, bodyB := bodies[pair.a], bodies[pair.b];
      if Tagged(bodyA) && Tagged(bodyB) && bodyA.ballType == bodyB.ballType {
        var currentIndex := FindIndex(BallTypes, bodyA.ballType.value);
        if currentIndex == |BallTypes| - 1 {
          return;
        }
        var nextIndex := currentIndex + 1;
        var newX := (bodyA.x + bodyB.x) / 2.0;
        var newY := (bodyA.y + bodyB.y) / 2.0;
        Remove(pair.a);
        Remove(pair.b);
        var newType := BallTypes[nextIndex];
        var newBall := CreateBall(newX, newY, newType.size as real, newType);
        assert newBall == MergedBall(bodyA, bodyB);
        var _ := Add(newBall);
      }
    }

    /** The `collisionStart` handler: the batch's pairs, in order. */
    method CollisionStart(pairs: seq<Pair>)
      requires Valid() && AllKnown(Scene(), pairs)
      modifies this
      ensures Valid() && State() == Spawner.CollisionStart(old(State()), pairs)
    {
      ghost var s0 := Scene();
      var i := 0;
      while i < |pairs|
        invariant 0 <= i <= |pairs|
        invariant ValidScene(Scene())
        invariant AllKnown(s0, pairs[..i])
        invariant Scene() == ResolvePairs(s0, pairs[..i])
        invariant previewBall == old(previewBall)
      {
        var pair := pairs[i];
        assert pairs[..i + 1] == pairs[..i] + [pair];
        ResolvePairsSnoc(s0, pairs[..i], pair);
        ResolveCollision(pair);
        i := i + 1;
      }
      assert pairs[..i] == pairs;
      Spawner.InvariantPreserved(old(State()), 0.0, 0.0, pairs);
    }

    /** The `mousemove` handler, given the pointer's x in canvas coordinates. */
    method MouseMove(mouseX: real)
      requires Valid()
      modifies this
      ensures Valid() && State() == Spawner.MouseMove(old(State()), mouseX)
    {
      if previewBall.Some? {
        SetPosition(previewBall.value, mouseX, Spawner.FixedY);
      }
      Spawner.InvariantPreserved(old(State()), mouseX, 0.0, []);
    }

    /** The `mousedown` handler, given the pointer's x and the draw u of `Math.random()`. */
    method MouseDown(mouseX: real, u: real)
      requires Valid() && 0.0 <= u < 1.0
      modifies this
      ensures Valid() && State() == Spawner.MouseDown(old(State()), mouseX, u)
    {
      if previewBall.Some? {
        SetStatic(previewBall.value, false);
        SetPosition(previewBall.value, mouseX, Spawner.FixedY);
      }
      assert bodies == Spawner.Released(old(State()), mouseX);
      var randomTypeIndex := RandomTypeIndex(u);
      var randomBallType := BallTypes[randomTypeIndex];
      var ball := CreateBall(Spawner.InitialX, Spawner.FixedY, randomBallType.size as real, randomBallType);
      ball := ball.(isStatic := true);
      assert ball == Spawner.NewPreview(u);
      var id := Add(ball);
      previewBall := Some(id);
      Spawner.InvariantPreserved(old(State()), mouseX, u, []);
    }
  }
}
