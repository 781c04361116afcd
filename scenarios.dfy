/** Concrete collision batches that illustrate the merge rule. */
module Scenarios {
  import opened Wrappers
  import opened Balls
  import opened Merge

  /** A dynamic ball of tier k at (x, y), as the game creates one. */
  function BallAt(k: nat, x: real, y: real): Body
    requires k < |BallTypes|
  {
    CreateBall(x, y, BallTypes[k].size as real, BallTypes[k])
  }

  /** The ground and two balls of tier k at (100, 100) and (110, 100). */
  function TwoBalls(k: nat): Scene
    requires k < |BallTypes|
  {
    Scene(map[0 := Boundary(300.0, 390.0), 1 := BallAt(k, 100.0, 100.0), 2 := BallAt(k, 110.0, 100.0)],
          {0, 1, 2}, 3)
  }

  /** The ground and three first-tier balls at (100, 100), (110, 100) and (90, 100). */
  function ThreeBalls(): Scene {
    Scene(map[0 := Boundary(300.0, 390.0), 1 := BallAt(0, 100.0, 100.0),
              2 := BallAt(0, 110.0, 100.0), 3 := BallAt(0, 90.0, 100.0)],
          {0, 1, 2, 3}, 4)
  }

  /** Two first-tier balls at (100, 100) and (110, 100) become one second-tier ball at (105, 100). */
  lemma FirstTierPairMerges()
    ensures var r := ResolvePairs(TwoBalls(0), [Pair(1, 2)]);
      && r.world == {0, 3}
      && 3 in r.bodies && Tagged(r.bodies[3])
      && TierIndex(r.bodies[3]) == 1
      && r.bodies[3].radius == Some(15.0)
      && r.bodies[3].x == 105.0 && r.bodies[3].y == 100.0
  {
    var s := TwoBalls(0);
    TierNamesResolve(0);
    ResolvePairsSnoc(s, [], Pair(1, 2));
    assert [] + [Pair(1, 2)] == [Pair(1, 2)];
    MergeEffect(s, Pair(1, 2));
  }

  /** Two last-tier balls stay as they are, and a ball touching the ground changes nothing. */
  lemma LastTierAndGroundPairsAreNoOps()
    ensures ResolvePairs(TwoBalls(5), [Pair(1, 2), Pair(0, 1)]) == TwoBalls(5)
  {
    var s := TwoBalls(5);
    TierNamesResolve(5);
    TwoPairBatch(s, Pair(1, 2), Pair(0, 1));
    NoMergeCases(s, Pair(1, 2));
    NoMergeCases(s, Pair(0, 1));
  }

  /**
   * One first-tier ball touching two others in the same batch is consumed
   * by the first pair and still merges again in the second: all three
   * leave the world and two second-tier balls appear.
   */
  lemma ConsumedBallMergesAgain()
    ensures var r := ResolvePairs(ThreeBalls(), [Pair(1, 2), Pair(1, 3)]);
      && r.world == {0, 4, 5}
      && 4 in r.bodies && 5 in r.bodies
      && Tagged(r.bodies[4]) && Tagged(r.bodies[5])
      && TierIndex(r.bodies[4]) == 1 && TierIndex(r.bodies[5]) == 1
      && r.bodies[5].x == 95.0
  {
    var s := ThreeBalls();
    var b1, b3 := s.bodies[1], s.bodies[3];
    TierNamesResolve(0);
    TierNamesResolve(1);
    assert Merges(s, Pair(1, 2));
    TwoPairBatch(s, Pair(1, 2), Pair(1, 3));
    var once := ResolvePair(s, Pair(1, 2));
    assert once.world == {0, 3, 4} && once.nextId == 5;
    assert once.bodies[1] == b1 && once.bodies[3] == b3;
    assert Merges(once, Pair(1, 3));
    var twice := ResolvePair(once, Pair(1, 3));
    assert twice.world == {0, 4, 5};
    assert twice.bodies[5] == MergedBall(b1, b3);
    assert TierIndex(twice.bodies[4]) == 1 && TierIndex(twice.bodies[5]) == 1;
  }
}
