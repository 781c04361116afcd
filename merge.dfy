/**
 * The merge resolver: the `collisionStart` handler.
 *
 * A scene holds every body ever created, keyed by its id (`bodies`), the
 * ids currently in the physics world (`world`) and the next free id. A
 * body removed from the world keeps its record, as a removed JavaScript
 * object keeps its properties: a later pair of the same batch that names it
 * still reads its tag and position.
 */
module Merge {
  import opened Wrappers
  import opened Balls

  type BodyId = nat

  datatype Scene = Scene(bodies: map<BodyId, Body>, world: set<BodyId>, nextId: BodyId)

  /** One colliding pair, `pair.bodyA` and `pair.bodyB`. */
  datatype Pair = Pair(a: BodyId, b: BodyId)

  /** The world holds only known bodies, and every known id is below the next free one. */
  predicate ValidScene(s: Scene) {
    s.world <= s.bodies.Keys && forall id :: id in s.bodies ==> id < s.nextId
  }

  /** Every tagged body is a ball of some tier with that tier's radius. */
  predicate WellFormed(s: Scene) {
    forall id :: id in s.bodies && Tagged(s.bodies[id]) ==> IsTierBall(s.bodies[id])
  }

  /** The world as a map from body id to body record. */
  function WorldMap(s: Scene): (m: map<BodyId, Body>)
    requires ValidScene(s)
    ensures m.Keys == s.world
    ensures forall id :: id in m ==> m[id] == s.bodies[id]
  {
    map id | id in s.world :: s.bodies[id]
  }

  /** The ids of the balls (tagged bodies) in the world. */
  function BallIds(s: Scene): set<BodyId>
    requires ValidScene(s)
  {
    set id | id in s.world && Tagged(s.bodies[id])
  }

  predicate PairKnown(s: Scene, p: Pair) {
    p.a in s.bodies && p.b in s.bodies
  }

  predicate AllKnown(s: Scene, ps: seq<Pair>) {
    forall i :: 0 <= i < |ps| ==> PairKnown(s, ps[i])
  }

  /** Both bodies carry a truthy `ballType` and the two are strictly equal. */
  predicate SameType(a: Body, b: Body) {
    Tagged(a) && Tagged(b) && a.ballType == b.ballType
  }

  /** The pair merges: same type, and not the last tier of the table. */
  predicate Merges(s: Scene, p: Pair)
    requires PairKnown(s, p)
    ensures Merges(s, p) ==>
      && Tagged(s.bodies[p.a]) && Tagged(s.bodies[p.b])
      && TierIndex(s.bodies[p.b]) == TierIndex(s.bodies[p.a]) < LastIndex
  {
    SameType(s.bodies[p.a], s.bodies[p.b]) && TierIndex(s.bodies[p.a]) != LastIndex
  }

  /** The index of the tier two merging balls become. */
  function NextIndex(a: Body): (k: nat)
    requires Tagged(a) && TierIndex(a) != LastIndex
    ensures k == TierIndex(a) + 1 && k < |BallTypes|
  {
    TierIndex(a) + 1
  }

  /** The ball that replaces a merging pair: next tier, at the midpoint, dynamic. */
  function MergedBall(a: Body, b: Body): (m: Body)
    requires Tagged(a) && TierIndex(a) != LastIndex
    ensures Tagged(m) && TierIndex(m) == TierIndex(a) + 1 && IsTierBall(m)
    ensures m.radius == Some(BallTypes[TierIndex(a) + 1].size as real)
    ensures m.x == (a.x + b.x) / 2.0 && m.y == (a.y + b.y) / 2.0 && !m.isStatic
  {
    var t := BallTypes[NextIndex(a)];
    CreatedBallHasTier((a.x + b.x) / 2.0, (a.y + b.y) / 2.0, NextIndex(a));
    CreateBall((a.x + b.x) / 2.0, (a.y + b.y) / 2.0, t.size as real, t)
  }

  /** The effect of one pair on the scene. */
  function ResolvePair(s: Scene, p: Pair): (r: Scene)
    requires ValidScene(s) && PairKnown(s, p)
    ensures ValidScene(r)
    ensures s.bodies.Keys <= r.bodies.Keys && s.nextId <= r.nextId
    ensures forall id :: id in s.bodies ==> r.bodies[id] == s.bodies[id]
  {
    if Merges(s, p) then
      var n := s.nextId;
      Scene(s.bodies[n := MergedBall(s.bodies[p.a], s.bodies[p.b])],
            s.world - {p.a} - {p.b} + {n},
            n + 1)
    else
      s
  }

  /** The effect of a whole batch, its pairs taken in order. */
  function ResolvePairs(s: Scene, ps: seq<Pair>): (r: Scene)
    requires ValidScene(s) && AllKnown(s, ps)
    ensures ValidScene(r)
    ensures s.bodies.Keys <= r.bodies.Keys && s.nextId <= r.nextId
    ensures forall id :: id in s.bodies ==> r.bodies[id] == s.bodies[id]
    decreases |ps|
  {
    if ps == [] then s
    else
      var init := ResolvePairs(s, ps[..|ps| - 1]);
      ResolvePair(init, ps[|ps| - 1])
  }

  /** A batch's known pairs stay known once earlier pairs have run. */
  lemma AllKnownPrefix(s: Scene, ps: seq<Pair>, k: nat)
    requires AllKnown(s, ps) && k <= |ps|
    ensures AllKnown(s, ps[..k])
  {
  }

  /** Running a batch extended by one pair runs that pair after the batch. */
  lemma ResolvePairsSnoc(s: Scene, ps: seq<Pair>, p: Pair)
    requires ValidScene(s) && AllKnown(s, ps) && PairKnown(s, p)
    ensures AllKnown(s, ps + [p])
    ensures ResolvePairs(s, ps + [p]) == ResolvePair(ResolvePairs(s, ps), p)
  {
    assert (ps + [p])[..|ps|] == ps;
  }

  /** A batch of two pairs runs the first pair, then the second. */
  lemma TwoPairBatch(s: Scene, p: Pair, q: Pair)
    requires ValidScene(s) && PairKnown(s, p) && PairKnown(s, q)
    ensures AllKnown(s, [p, q]) && PairKnown(ResolvePair(s, p), q)
    ensures ResolvePairs(s, [p, q]) == ResolvePair(ResolvePair(s, p), q)
  {
    ResolvePairsSnoc(s, [], p);
    assert [] + [p] == [p];
    ResolvePairsSnoc(s, [p], q);
    assert [p] + [q] == [p, q];
  }

  /** A pair changes the scene exactly when it merges. */
  lemma ResolvePairChangesIff(s: Scene, p: Pair)
    requires ValidScene(s) && PairKnown(s, p)
    ensures ResolvePair(s, p) != s <==> Merges(s, p)
  {
  }

  /**
   * Every pair that is not two balls of the same type leaves the scene as it
   * was, in particular every pair with the ground or a wall; so does a pair
   * of two balls of the last tier.
   */
  lemma NoMergeCases(s: Scene, p: Pair)
    requires ValidScene(s) && PairKnown(s, p)
    ensures !Tagged(s.bodies[p.a]) || !Tagged(s.bodies[p.b]) ==> ResolvePair(s, p) == s
    ensures s.bodies[p.a].ballType != s.bodies[p.b].ballType ==> ResolvePair(s, p) == s
    ensures SameType(s.bodies[p.a], s.bodies[p.b]) && TierIndex(s.bodies[p.a]) == LastIndex
      ==> ResolvePair(s, p) == s
  {
  }

  /**
   * A merge removes the two colliding bodies, adds one fresh dynamic ball
   * of the next tier with that tier's radius at their midpoint, and touches
   * no other body.
   */
  lemma MergeEffect(s: Scene, p: Pair)
    requires ValidScene(s) && PairKnown(s, p) && Merges(s, p)
    ensures var r := ResolvePair(s, p); var a := s.bodies[p.a]; var b := s.bodies[p.b];
      var n := s.nextId;
      && n !in s.bodies
      && r.world == s.world - {p.a, p.b} + {n}
      && r.bodies.Keys == s.bodies.Keys + {n}
      && r.nextId == n + 1
      && (forall id :: id in s.bodies ==> r.bodies[id] == s.bodies[id])
      && Tagged(r.bodies[n])
      && TierIndex(r.bodies[n]) == TierIndex(a) + 1 < |BallTypes|
      && r.bodies[n].radius == Some(BallTypes[TierIndex(a) + 1].size as real)
      && r.bodies[n].x == (a.x + b.x) / 2.0
      && r.bodies[n].y == (a.y + b.y) / 2.0
      && !r.bodies[n].isStatic
  {
    var a := s.bodies[p.a];
    TierNamesResolve(NextIndex(a));
  }

  /** As a map from id to record, the world loses both colliding ids and gains the merged ball. */
  lemma MergeWorldMap(s: Scene, p: Pair)
    requires ValidScene(s) && PairKnown(s, p) && Merges(s, p)
    ensures WorldMap(ResolvePair(s, p))
      == (WorldMap(s) - {p.a, p.b})[s.nextId := MergedBall(s.bodies[p.a], s.bodies[p.b])]
  {
    MergeEffect(s, p);
  }

  /** Removing two distinct members and adding one non-member shrinks a set by one. */
  lemma SwapTwoForOne(w: set<BodyId>, x: BodyId, y: BodyId, n: BodyId)
    requires x in w && y in w && x != y && n !in w
    ensures |w - {x, y} + {n}| == |w| - 1
  {
    assert w == (w - {x, y}) + {x, y};
    assert |w| == |w - {x, y}| + 2;
  }

  /**
   * When both colliding balls are still in the world and are two different
   * bodies, the merge lowers the world's body count and its ball count by one.
   */
  lemma MergeCounts(s: Scene, p: Pair)
    requires ValidScene(s) && PairKnown(s, p) && Merges(s, p)
    requires p.a in s.world && p.b in s.world && p.a != p.b
    ensures ValidScene(ResolvePair(s, p))
    ensures |ResolvePair(s, p).world| == |s.world| - 1
    ensures |BallIds(ResolvePair(s, p))| == |BallIds(s)| - 1
  {
    var r := ResolvePair(s, p);
    var n := s.nextId;
    MergeEffect(s, p);
    SwapTwoForOne(s.world, p.a, p.b, n);
    forall id ensures id in BallIds(r) <==> id in BallIds(s) - {p.a, p.b} + {n} {
      if id in r.world && id != n {
        assert r.bodies[id] == s.bodies[id];
      }
    }
    assert BallIds(r) == BallIds(s) - {p.a, p.b} + {n};
    SwapTwoForOne(BallIds(s), p.a, p.b, n);
  }

  /** One pair keeps every tagged body a well-formed ball of its tier. */
  lemma ResolvePairPreserves(s: Scene, p: Pair)
    requires ValidScene(s) && WellFormed(s) && PairKnown(s, p)
    ensures WellFormed(ResolvePair(s, p))
  {
    if Merges(s, p) {
      MergeEffect(s, p);
      var r := ResolvePair(s, p);
      var n := s.nextId;
      forall id | id in r.bodies && Tagged(r.bodies[id])
        ensures IsTierBall(r.bodies[id])
      {
        if id == n {
          CreatedBallHasTier(r.bodies[n].x, r.bodies[n].y, NextIndex(s.bodies[p.a]));
        }
      }
    }
  }

  /** A whole batch keeps every tagged body a well-formed ball of its tier. */
  lemma {:induction false} ResolvePairsPreserves(s: Scene, ps: seq<Pair>)
    requires ValidScene(s) && WellFormed(s) && AllKnown(s, ps)
    ensures WellFormed(ResolvePairs(s, ps))
    decreases |ps|
  {
    if ps != [] {
      var init := ps[..|ps| - 1];
      AllKnownPrefix(s, ps, |ps| - 1);
      ResolvePairsPreserves(s, init);
      ResolvePairPreserves(ResolvePairs(s, init), ps[|ps| - 1]);
    }
  }

  /** Untagged bodies (ground, walls) are never removed from the world by a batch. */
  lemma {:induction false} BoundariesSurvive(s: Scene, ps: seq<Pair>, id: BodyId)
    requires ValidScene(s) && AllKnown(s, ps) && id in s.world && id in s.bodies && !Tagged(s.bodies[id])
    ensures id in ResolvePairs(s, ps).world
    decreases |ps|
  {
    if ps != [] {
      var init := ps[..|ps| - 1];
      AllKnownPrefix(s, ps, |ps| - 1);
      BoundariesSurvive(s, init, id);
      var t := ResolvePairs(s, init);
      assert t.bodies[id] == s.bodies[id];
    }
  }

  /** Every body a batch creates is a dynamic ball: no batch makes a static body. */
  lemma {:induction false} BatchAddsDynamicBalls(s: Scene, ps: seq<Pair>)
    requires ValidScene(s) && AllKnown(s, ps)
    ensures var r := ResolvePairs(s, ps);
      forall id :: id in r.bodies && id !in s.bodies ==> Tagged(r.bodies[id]) && !r.bodies[id].isStatic
    decreases |ps|
  {
    if ps != [] {
      var init := ps[..|ps| - 1];
      AllKnownPrefix(s, ps, |ps| - 1);
      BatchAddsDynamicBalls(s, init);
      var t := ResolvePairs(s, init);
      var p := ps[|ps| - 1];
      if Merges(t, p) {
        MergeEffect(t, p);
      }
    }
  }

  /**
   * Whether a pair merges depends only on the two bodies' records, never on
   * whether they are still in the world.
   */
  lemma DecisionIgnoresMembership(s: Scene, t: Scene, p: Pair)
    requires PairKnown(s, p) && PairKnown(t, p)
    requires t.bodies[p.a] == s.bodies[p.a] && t.bodies[p.b] == s.bodies[p.b]
    ensures Merges(t, p) == Merges(s, p)
  {
  }

  /**
   * A merging pair that occurs twice in one batch merges twice: the second
   * occurrence finds both balls already removed and still adds a second
   * ball of the next tier.
   */
  lemma RepeatedPairMergesTwice(s: Scene, p: Pair)
    requires ValidScene(s) && PairKnown(s, p) && Merges(s, p)
    ensures PairKnown(ResolvePair(s, p), p) && Merges(ResolvePair(s, p), p)
    ensures var r := ResolvePair(ResolvePair(s, p), p); var n := s.nextId;
      && r.world == s.world - {p.a, p.b} + {n, n + 1}
      && r.nextId == n + 2
      && n in r.bodies && n + 1 in r.bodies
      && r.bodies[n] == r.bodies[n + 1]
      && Tagged(r.bodies[n + 1])
      && TierIndex(r.bodies[n + 1]) == TierIndex(s.bodies[p.a]) + 1
  {
    var once := ResolvePair(s, p);
    MergeEffect(s, p);
    DecisionIgnoresMembership(s, once, p);
    MergeEffect(once, p);
  }
}
