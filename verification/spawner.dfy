/** Obstacle and token spawning (`spawnObstacle` in src/components/Game.tsx).
    The four `Math.random()` draws a spawn makes are passed in explicitly. */
module Spawner {
  import opened RunnerTypes

  /** No gate edge is placed closer than this to the top or the floor. */
  const MinHeight: int := 50
  /** Math.PI * 2 as Game.tsx evaluates it in double precision. */
  const Tau: real := 6.283185307179586
  /** A draw above this threshold makes the obstacle the card variant. */
  const CardThreshold: real := 0.8

  /** The four random numbers one spawn consumes, in the order `spawnObstacle` draws
      them: gate height, obstacle variant, token chance, token bob phase. */
  datatype SpawnDraw = SpawnDraw(height: real, kind: real, token: real, phase: real) {
    predicate Valid() {
      && 0.0 <= height < 1.0
      && 0.0 <= kind < 1.0
      && 0.0 <= token < 1.0
      && 0.0 <= phase < 1.0
    }
  }

  /** The obstacles and tokens on the field, which a spawn extends together. */
  datatype Scenery = Scenery(obstacles: seq<Obstacle>, collectibles: seq<Collectible>)

  /** Highest admissible top edge of the gap on a field of height `h`. */
  function MaxTop(t: Tuning, h: int): int {
    h - t.obstacleGap - MinHeight
  }

  /** The gate's top edge for a random draw `r`: a whole number chosen
      uniformly from [MinHeight, MaxTop]. */
  function TopHeight(t: Tuning, h: int, r: real): (top: int)
    requires 0.0 <= r < 1.0
    ensures MaxTop(t, h) >= MinHeight ==> MinHeight <= top <= MaxTop(t, h)
  {
    var span := MaxTop(t, h) - MinHeight + 1;
    var k := (r * span as real).Floor;
    assert span >= 1 ==> 0 <= k < span by {
      if span >= 1 {
        assert 0.0 <= r * span as real;
        assert r * span as real < span as real by {
          assert (1.0 - r) * span as real > 0.0;
        }
      }
    }
    k + MinHeight
  }

  /** Every admissible top edge is produced by some draw, so the choice is
      over the whole range and not a part of it. */
  lemma EveryTopHeightReachable(t: Tuning, h: int, top: int)
    requires MinHeight <= top <= MaxTop(t, h)
    ensures exists r: real :: 0.0 <= r < 1.0 && TopHeight(t, h, r) == top
  {
    var span := MaxTop(t, h) - MinHeight + 1;
    var r := (top - MinHeight) as real / span as real;
    assert r * span as real == (top - MinHeight) as real;
    assert (r * span as real).Floor == top - MinHeight;
    assert r < 1.0 by {
      assert (top - MinHeight) as real < span as real;
    }
    assert TopHeight(t, h, r) == top;
  }

  /** The x the next obstacle is measured from: the newest obstacle's x, or the
      right edge of the field when there is none. */
  function LastX(obs: seq<Obstacle>, width: real): real {
    if |obs| == 0 then width else obs[|obs| - 1].x
  }

  /** Append one obstacle one spacing to the right of the newest one (never
      left of the field's right edge) and, when the token draw falls under the
      token chance, a token centred in its gap. */
  function Spawn(t: Tuning, vp: Viewport, sc: Scenery, d: SpawnDraw): (r: Scenery)
    requires d.Valid()
    ensures |r.obstacles| == |sc.obstacles| + 1
    ensures r.obstacles[..|sc.obstacles|] == sc.obstacles
    ensures var o := r.obstacles[|sc.obstacles|];
      && o.x >= vp.width as real
      && o.x >= LastX(sc.obstacles, vp.width as real) + t.obstacleSpacing
      && (o.x == vp.width as real || o.x == LastX(sc.obstacles, vp.width as real) + t.obstacleSpacing)
      && Shaped(t, o)
      && !o.passed
      && (MaxTop(t, vp.height) >= MinHeight ==> MinHeight <= o.topHeight <= MaxTop(t, vp.height))
      && (d.token < t.spawnTokenChance ==>
            r.collectibles == sc.collectibles + [Collectible(
              o.x + t.obstacleWidth / 2.0,
              o.topHeight as real + t.obstacleGap as real / 2.0,
              TokenRadius, false, Token, d.phase * Tau)])
      && (d.token >= t.spawnTokenChance ==> r.collectibles == sc.collectibles)
  {
    var top := TopHeight(t, vp.height, d.height);
    var x := MaxReal(LastX(sc.obstacles, vp.width as real) + t.obstacleSpacing, vp.width as real);
    var o := Obstacle(x, top, top + t.obstacleGap, t.obstacleWidth, false, if d.kind > CardThreshold then NftCard else Block);
    var cols :=
      if d.token < t.spawnTokenChance then
        sc.collectibles + [Collectible(x + t.obstacleWidth / 2.0, top as real + t.obstacleGap as real / 2.0, TokenRadius, false, Token, d.phase * Tau)]
      else sc.collectibles;
    Scenery(sc.obstacles + [o], cols)
  }

  /** A spawned token sits at the horizontal centre of its obstacle and the
      vertical centre of the gap, strictly between the gate's two edges. */
  lemma SpawnedTokenInGap(t: Tuning, vp: Viewport, sc: Scenery, d: SpawnDraw)
    requires t.Valid() && d.Valid()
    requires d.token < t.spawnTokenChance
    ensures var r := Spawn(t, vp, sc, d);
            var o := r.obstacles[|sc.obstacles|];
            var c := r.collectibles[|sc.collectibles|];
      && |r.collectibles| == |sc.collectibles| + 1
      && o.x < c.x < o.x + o.width
      && (o.topHeight as real) < c.y < (o.bottomY as real)
      && c.y - o.topHeight as real == o.bottomY as real - c.y
      && !c.collected
  {
  }

  /** The loop spawns when the field is empty or the newest obstacle has
      scrolled more than one spacing left of the right edge. */
  predicate NeedsSpawn(t: Tuning, vp: Viewport, obs: seq<Obstacle>) {
    |obs| == 0 || obs[|obs| - 1].x < vp.width as real - t.obstacleSpacing
  }

  /** Spawn if the lookahead buffer has run short. */
  function Replenish(t: Tuning, vp: Viewport, sc: Scenery, d: SpawnDraw): (r: Scenery)
    requires t.Valid() && d.Valid()
    ensures |r.obstacles| > 0
    ensures LastX(r.obstacles, vp.width as real) >= vp.width as real - t.obstacleSpacing
    ensures NeedsSpawn(t, vp, sc.obstacles) ==> r == Spawn(t, vp, sc, d)
    ensures !NeedsSpawn(t, vp, sc.obstacles) ==> r == sc
  {
    if NeedsSpawn(t, vp, sc.obstacles) then Spawn(t, vp, sc, d) else sc
  }

  /** Spawning keeps every obstacle well shaped and keeps the spacing order
      between all of them. */
  lemma {:induction false} SpawnKeepsLayout(t: Tuning, vp: Viewport, sc: Scenery, d: SpawnDraw)
    requires t.Valid() && d.Valid()
    requires forall o <- sc.obstacles :: Shaped(t, o)
    requires Spread(t, sc.obstacles)
    requires forall c <- sc.collectibles :: c.radius == TokenRadius
    ensures var r := Spawn(t, vp, sc, d);
      && (forall o <- r.obstacles :: Shaped(t, o))
      && Spread(t, r.obstacles)
      && (forall c <- r.collectibles :: c.radius == TokenRadius)
  {
    var r := Spawn(t, vp, sc, d);
    var n := |sc.obstacles|;
    assert r.obstacles == sc.obstacles + [r.obstacles[n]] by {
      assert r.obstacles[..n] == sc.obstacles;
    }
    forall i, j | 0 <= i < j < |r.obstacles|
      ensures r.obstacles[i].x + t.obstacleSpacing <= r.obstacles[j].x
    {
      if j == n {
        assert r.obstacles[i] == sc.obstacles[i];
        if i < n - 1 {
          assert sc.obstacles[i].x + t.obstacleSpacing <= sc.obstacles[n - 1].x;
        }
      } else {
        assert r.obstacles[i] == sc.obstacles[i] && r.obstacles[j] == sc.obstacles[j];
      }
    }
  }
}
