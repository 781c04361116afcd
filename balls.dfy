/**
 * The tier table (`ballTypes`) and the ball factory (`createBall`).
 *
 * A body is the part of a physics-engine body the game reads or writes:
 * its custom `ballType` tag (the tier's name), its custom `radius`
 * property, its fill colour, its position and its static flag.
 * Boundary rectangles carry no tag and no radius.
 */
module Balls {
  import opened Wrappers

  datatype Tier = Tier(name: string, color: string, size: nat)

  /** The fixed, ordered table of the six tiers. */
  const BallTypes: seq<Tier> := [
    Tier("type1", "red", 10),
    Tier("type2", "blue", 15),
    Tier("type3", "green", 20),
    Tier("type4", "yellow", 25),
    Tier("type5", "purple", 30),
    Tier("type6", "pink", 35)
  ]

  /** `ballTypes.length - 1`: the tier that never merges further. */
  const LastIndex: int := |BallTypes| - 1

  datatype Body = Body(
    ballType: Option<string>,
    radius: Option<real>,
    fill: Option<string>,
    x: real,
    y: real,
    isStatic: bool)

  /** A static, untagged rectangle (ground or wall) centred at (x, y). */
  function Boundary(x: real, y: real): (b: Body)
    ensures b.ballType.None? && b.isStatic && b.x == x && b.y == y
  {
    Body(None, None, None, x, y, true)
  }

  /** JavaScript truthiness of `body.ballType`: present and not the empty string. */
  predicate Tagged(b: Body) {
    b.ballType.Some? && b.ballType.value != ""
  }

  /**
   * `types.findIndex(type => type.name === name)`: the first index whose
   * tier has this name, or -1 when there is none.
   */
  function FindIndex(types: seq<Tier>, name: string): (r: int)
    ensures -1 <= r < |types|
    ensures r == -1 <==> forall i :: 0 <= i < |types| ==> types[i].name != name
    ensures r >= 0 ==> types[r].name == name
    ensures r >= 0 ==> forall i :: 0 <= i < r ==> types[i].name != name
  {
    if types == [] then -1
    else if types[0].name == name then 0
    else
      var k := FindIndex(types[1..], name);
      if k == -1 then -1 else k + 1
  }

  /** The tier index a tagged body's name resolves to (-1 for a name not in the table). */
  function TierIndex(b: Body): (k: int)
    requires Tagged(b)
    ensures -1 <= k < |BallTypes|
    ensures k >= 0 ==> BallTypes[k].name == b.ballType.value
    ensures k == -1 <==> forall i :: 0 <= i < |BallTypes| ==> BallTypes[i].name != b.ballType.value
  {
    FindIndex(BallTypes, b.ballType.value)
  }

  /**
   * `createBall(x, y, radius, type)`: a fresh circle at (x, y), filled with
   * the tier's colour, tagged with the tier's name and with the given radius.
   * The static flag is the engine's default for a new circle, false.
   */
  function CreateBall(x: real, y: real, radius: real, t: Tier): (b: Body)
    ensures Tagged(b) <==> t.name != ""
    ensures b.ballType == Some(t.name) && b.fill == Some(t.color)
    ensures b.radius == Some(radius) && b.x == x && b.y == y && !b.isStatic
  {
    Body(Some(t.name), Some(radius), Some(t.color), x, y, false)
  }

  /** A well-formed ball: its tag names a tier of the table and its radius is that tier's size. */
  predicate IsTierBall(b: Body)
    requires Tagged(b)
  {
    0 <= TierIndex(b) && b.radius == Some(BallTypes[TierIndex(b)].size as real)
  }

  /** `Math.floor(u * ballTypes.length)` for a draw u of `Math.random()`. */
  function RandomTypeIndex(u: real): (k: nat)
    requires 0.0 <= u < 1.0
    ensures k < |BallTypes|
    ensures k as real <= u * |BallTypes| as real < k as real + 1.0
  {
    (u * |BallTypes| as real).Floor
  }

  /** Every name in the table resolves back to its own index: the names are distinct. */
  lemma TierNamesResolve(k: nat)
    requires k < |BallTypes|
    ensures FindIndex(BallTypes, BallTypes[k].name) == k
  {
    var r := FindIndex(BallTypes, BallTypes[k].name);
    assert BallTypes[r].name == BallTypes[k].name;
  }

  /** The table is non-trivial, and radii grow strictly with the tier index. */
  lemma SizesIncrease(i: nat, j: nat)
    requires i < j < |BallTypes|
    ensures 0 < BallTypes[i].size < BallTypes[j].size
  {
  }

  /** A ball made for tier k of the table is a well-formed tagged ball of tier k. */
  lemma CreatedBallHasTier(x: real, y: real, k: nat)
    requires k < |BallTypes|
    ensures var b := CreateBall(x, y, BallTypes[k].size as real, BallTypes[k]);
      Tagged(b) && TierIndex(b) == k && IsTierBall(b)
  {
    TierNamesResolve(k);
  }

  /**
   * The draw partitions [0, 1) into |BallTypes| intervals of equal width:
   * tier k is chosen exactly when k/6 <= u < (k+1)/6.
   */
  lemma RandomTypeIndexInterval(u: real, k: nat)
    requires 0.0 <= u < 1.0 && k < |BallTypes|
    ensures RandomTypeIndex(u) == k <==>
      k as real / |BallTypes| as real <= u < (k as real + 1.0) / |BallTypes| as real
  {
    var n := |BallTypes| as real;
    var r := RandomTypeIndex(u);
    if r == k {
      assert k as real <= u * n < k as real + 1.0;
    } else if r < k {
      assert u * n < k as real;
    } else {
      assert (k as real + 1.0) <= u * n;
    }
  }

  /** Every tier, the last one included, can be the next preview. */
  lemma EveryTierCanBeDrawn(k: nat)
    requires k < |BallTypes|
    ensures RandomTypeIndex(k as real / |BallTypes| as real) == k
  {
    RandomTypeIndexInterval(k as real / |BallTypes| as real, k);
  }
}
