/** Scrolling, collision detection and scoring: the two `forEach` passes of
    `update` in src/components/Game.tsx, over the obstacles and over the
    collectibles, each followed by its cleanup filter. */
module Collision {
  import opened RunnerTypes
  import opened Physics
  import opened Seqs

  /* ---------------------------------------------------------------------
     Obstacles
     --------------------------------------------------------------------- */

  function Shifted(o: Obstacle, shift: real): Obstacle {
    o.(x := o.x - shift)
  }

  /** The player's centre is right of the obstacle's right edge. */
  predicate Cleared(p: Player, o: Obstacle) {
    p.x > o.x + o.width
  }

  /** The player's horizontal extent overlaps the obstacle's columns. */
  predicate Overlaps(p: Player, o: Obstacle) {
    p.x + p.radius > o.x && p.x - p.radius < o.x + o.width
  }

  /** The player's vertical extent reaches outside the gap. */
  predicate OutsideGap(p: Player, o: Obstacle) {
    p.y - p.radius < o.topHeight as real || p.y + p.radius > o.bottomY as real
  }

  /** The player touches a solid part of the obstacle. */
  predicate Strikes(p: Player, o: Obstacle) {
    Overlaps(p, o) && OutsideGap(p, o)
  }

  /** The obstacle, after scrolling, is passed for the first time. */
  predicate Flips(p: Player, o: Obstacle, shift: real) {
    !o.passed && Cleared(p, Shifted(o, shift))
  }

  /** The obstacle as it leaves this frame: scrolled, and marked passed if it
      was passed just now. */
  function Advanced(p: Player, o: Obstacle, shift: real): Obstacle {
    var m := Shifted(o, shift);
    if Flips(p, o, shift) then m.(passed := true) else m
  }

  /** How many obstacles are passed for the first time this frame. */
  function CountFlips(p: Player, obs: seq<Obstacle>, shift: real): nat
    decreases |obs|
  {
    if |obs| == 0 then 0
    else (if Flips(p, obs[0], shift) then 1 else 0) + CountFlips(p, obs[1..], shift)
  }

  /** How many obstacles the player strikes this frame. */
  function CountStrikes(p: Player, obs: seq<Obstacle>, shift: real): nat
    decreases |obs|
  {
    if |obs| == 0 then 0
    else (if Strikes(p, Shifted(obs[0], shift)) then 1 else 0) + CountStrikes(p, obs[1..], shift)
  }

  /** What the obstacle pass has produced so far: the processed obstacles, the
      running stats and particles, and whether a crash was seen. */
  datatype ObstacleSweep = ObstacleSweep(done: seq<Obstacle>, stats: Stats, particles: seq<Particle>, crashed: bool)

  /** One iteration of the obstacle pass: scroll, test for a crash (which
      bursts particles but does not stop the pass), and score a first pass. */
  function ObstacleStep(t: Tuning, p: Player, shift: real, spray: nat -> Kick, s: ObstacleSweep, o: Obstacle): ObstacleSweep {
    var m := Shifted(o, shift);
    var hit := Strikes(p, m);
    var particles := if hit then Burst(t, s.particles, p.x, p.y, PlayerHue, spray) else s.particles;
    var flip := !m.passed && Cleared(p, m);
    var score := s.stats.score + 1;
    var stats := if flip then s.stats.(score := score, highScore := Max(score, s.stats.highScore)) else s.stats;
    ObstacleSweep(s.done + [if flip then m.(passed := true) else m], stats, particles, s.crashed || hit)
  }

  lemma ObstacleStepFacts(t: Tuning, p: Player, shift: real, spray: nat -> Kick, s: ObstacleSweep, o: Obstacle)
    ensures var s1 := ObstacleStep(t, p, shift, spray, s, o);
      && s1.done == s.done + [Advanced(p, o, shift)]
      && s1.stats.score == s.stats.score + (if Flips(p, o, shift) then 1 else 0)
      && s1.stats.tokensCollected == s.stats.tokensCollected
      && s1.stats.highScore == (if Flips(p, o, shift) then Max(s1.stats.score, s.stats.highScore) else s.stats.highScore)
      && (s1.crashed <==> s.crashed || Strikes(p, Shifted(o, shift)))
      && |s1.particles| == |s.particles| + (if Strikes(p, Shifted(o, shift)) then t.particleCount else 0)
      && s1.particles[..|s.particles|] == s.particles
  {
  }

  /** The obstacle pass over `obs`, in list order. */
  function SweepObstacles(t: Tuning, p: Player, shift: real, spray: nat -> Kick, s: ObstacleSweep, obs: seq<Obstacle>): (r: ObstacleSweep)
    ensures |r.done| == |s.done| + |obs|
    ensures r.done[..|s.done|] == s.done
    ensures forall i :: 0 <= i < |obs| ==> r.done[|s.done| + i] == Advanced(p, obs[i], shift)
    ensures r.stats.score == s.stats.score + CountFlips(p, obs, shift)
    ensures r.stats.tokensCollected == s.stats.tokensCollected
    ensures r.stats.highScore == if CountFlips(p, obs, shift) > 0 then Max(s.stats.highScore, r.stats.score) else s.stats.highScore
    ensures r.crashed <==> s.crashed || CountStrikes(p, obs, shift) > 0
    ensures |r.particles| == |s.particles| + t.particleCount * CountStrikes(p, obs, shift)
    ensures r.particles[..|s.particles|] == s.particles
    decreases |obs|
  {
    if |obs| == 0 then s
    else
      var s1 := ObstacleStep(t, p, shift, spray, s, obs[0]);
      var r := SweepObstacles(t, p, shift, spray, s1, obs[1..]);
      ObstacleStepFacts(t, p, shift, spray, s, obs[0]);
      ObstacleSweepCompose(t, p, shift, s, obs, s1, r);
      r
  }

  /** The obstacle pass over `obs` is its first step followed by the pass over
      the rest; this lemma carries the contract of the rest over that step. */
  lemma ObstacleSweepCompose(t: Tuning, p: Player, shift: real, s: ObstacleSweep, obs: seq<Obstacle>, s1: ObstacleSweep, r: ObstacleSweep)
    requires |obs| > 0
    requires s1.done == s.done + [Advanced(p, obs[0], shift)]
    requires s1.stats.score == s.stats.score + (if Flips(p, obs[0], shift) then 1 else 0)
    requires s1.stats.tokensCollected == s.stats.tokensCollected
    requires s1.stats.highScore == (if Flips(p, obs[0], shift) then Max(s1.stats.score, s.stats.highScore) else s.stats.highScore)
    requires s1.crashed <==> s.crashed || Strikes(p, Shifted(obs[0], shift))
    requires |s1.particles| == |s.particles| + (if Strikes(p, Shifted(obs[0], shift)) then t.particleCount else 0)
    requires s1.particles[..|s.particles|] == s.particles
    requires |r.done| == |s1.done| + |obs| - 1
    requires r.done[..|s1.done|] == s1.done
    requires forall i :: 0 <= i < |obs| - 1 ==> r.done[|s1.done| + i] == Advanced(p, obs[1..][i], shift)
    requires r.stats.score == s1.stats.score + CountFlips(p, obs[1..], shift)
    requires r.stats.tokensCollected == s1.stats.tokensCollected
    requires r.stats.highScore == if CountFlips(p, obs[1..], shift) > 0 then Max(s1.stats.highScore, r.stats.score) else s1.stats.highScore
    requires r.crashed <==> s1.crashed || CountStrikes(p, obs[1..], shift) > 0
    requires |r.particles| == |s1.particles| + t.particleCount * CountStrikes(p, obs[1..], shift)
    requires r.particles[..|s1.particles|] == s1.particles
    ensures |r.done| == |s.done| + |obs|
    ensures r.done[..|s.done|] == s.done
    ensures forall i :: 0 <= i < |obs| ==> r.done[|s.done| + i] == Advanced(p, obs[i], shift)
    ensures r.stats.score == s.stats.score + CountFlips(p, obs, shift)
    ensures r.stats.tokensCollected == s.stats.tokensCollected
    ensures r.stats.highScore == if CountFlips(p, obs, shift) > 0 then Max(s.stats.highScore, r.stats.score) else s.stats.highScore
    ensures r.crashed <==> s.crashed || CountStrikes(p, obs, shift) > 0
    ensures |r.particles| == |s.particles| + t.particleCount * CountStrikes(p, obs, shift)
    ensures r.particles[..|s.particles|] == s.particles
  {
    BurstsAddUp(t.particleCount, Strikes(p, Shifted(obs[0], shift)), CountStrikes(p, obs[1..], shift));
    MapStep(s.done, obs, o => Advanced(p, o, shift), s1.done, r.done);
    PrefixOfPrefix(s.particles, s1.particles, r.particles);
  }

  /** Particles from one more event plus those from `rest` events. */
  lemma BurstsAddUp(k: nat, event: bool, rest: nat)
    ensures k * ((if event then 1 else 0) + rest) == (if event then k else 0) + k * rest
  {
  }

  /** The player strikes some obstacle of the frame exactly when the count of
      strikes is positive. */
  lemma {:induction false} StrikesCounted(p: Player, obs: seq<Obstacle>, shift: real)
    ensures CountStrikes(p, obs, shift) > 0 <==> exists i :: 0 <= i < |obs| && Strikes(p, Shifted(obs[i], shift))
    decreases |obs|
  {
    if |obs| > 0 {
      StrikesCounted(p, obs[1..], shift);
      if exists i :: 0 <= i < |obs| - 1 && Strikes(p, Shifted(obs[1..][i], shift)) {
        var i :| 0 <= i < |obs| - 1 && Strikes(p, Shifted(obs[1..][i], shift));
        assert Strikes(p, Shifted(obs[i + 1], shift));
      }
      if exists i :: 0 <= i < |obs| && Strikes(p, Shifted(obs[i], shift)) {
        var i :| 0 <= i < |obs| && Strikes(p, Shifted(obs[i], shift));
        if i > 0 {
          assert Strikes(p, Shifted(obs[1..][i - 1], shift));
        }
      }
    }
  }

  /** Every obstacle advanced on its own: the obstacle pass's effect on the
      list, stated without the running stats. */
  function AdvanceAll(p: Player, obs: seq<Obstacle>, shift: real): (r: seq<Obstacle>)
    ensures |r| == |obs|
    ensures forall i :: 0 <= i < |obs| ==> r[i] == Advanced(p, obs[i], shift)
  {
    seq(|obs|, (i: int) requires 0 <= i < |obs| => Advanced(p, obs[i], shift))
  }

  /** The obstacle pass, started empty, leaves each obstacle exactly as
      advancing it alone would. */
  lemma SweepObstaclesAdvancesEach(t: Tuning, p: Player, shift: real, spray: nat -> Kick, stats: Stats, ps: seq<Particle>, crashed: bool, obs: seq<Obstacle>)
    ensures SweepObstacles(t, p, shift, spray, ObstacleSweep([], stats, ps, crashed), obs).done == AdvanceAll(p, obs, shift)
  {
    var r := SweepObstacles(t, p, shift, spray, ObstacleSweep([], stats, ps, crashed), obs);
    assert forall i :: 0 <= i < |obs| ==> r.done[0 + i] == Advanced(p, obs[i], shift);
  }

  /** Scrolling never clears a passed flag, and a flag is set only on an
      obstacle the player is right of. */
  lemma PassedIsSticky(p: Player, o: Obstacle, shift: real)
    ensures var a := Advanced(p, o, shift);
      && (a.passed <==> o.passed || Cleared(p, a))
      && (a.passed && !o.passed ==> Flips(p, o, shift))
      && a.x == o.x - shift && a.topHeight == o.topHeight && a.bottomY == o.bottomY && a.width == o.width
  {
  }

  /** An obstacle survives cleanup while its right edge is within 200 pixels
      of the left edge of the field. */
  predicate ObstacleOnScreen(o: Obstacle) {
    o.x + o.width > -200.0
  }

  /* ---------------------------------------------------------------------
     Collectibles
     --------------------------------------------------------------------- */

  function ShiftedToken(c: Collectible, shift: real): Collectible {
    c.(x := c.x - shift)
  }

  /** The token's vertical bob on frame `frame`: five pixels times the sine of
      its phase. `wave` is the sine function. */
  function Bob(wave: real -> real, frame: nat, c: Collectible): real {
    wave(frame as real * 0.1 + c.floatOffset) * 5.0
  }

  /** The player's circle and the token's bobbed circle overlap: the distance
      between the centres is below the sum of the radii, compared on squares. */
  predicate Touches(p: Player, c: Collectible, bob: real) {
    var dx := p.x - c.x;
    var dy := p.y - (c.y + bob);
    var reach := p.radius + c.radius;
    reach > 0.0 && dx * dx + dy * dy < reach * reach
  }

  /** The squared comparison agrees with comparing the true distance `dist`
      (any non-negative root of the squared distance) with the sum of radii. */
  lemma TouchesIsDistanceTest(p: Player, c: Collectible, bob: real, dist: real)
    requires dist >= 0.0
    requires dist * dist == (p.x - c.x) * (p.x - c.x) + (p.y - (c.y + bob)) * (p.y - (c.y + bob))
    ensures Touches(p, c, bob) <==> dist < p.radius + c.radius
  {
    var reach := p.radius + c.radius;
    if dist < reach {
      Squares(dist, reach);
    }
    if reach > 0.0 && dist * dist < reach * reach && dist >= reach {
      Squares(reach, dist);
      assert false;
    }
  }

  lemma Squares(a: real, b: real)
    requires 0.0 <= a <= b
    ensures a * a <= b * b
    ensures a < b ==> a * a < b * b
  {
    assert b * b - a * a == (b - a) * (b + a);
    PositiveProduct(b - a, b + a);
  }

  lemma PositiveProduct(x: real, y: real)
    requires x >= 0.0 && y >= 0.0
    ensures x * y >= 0.0
    ensures x > 0.0 && y > 0.0 ==> x * y > 0.0
  {
  }

  /** The token, after scrolling, is picked up this frame. */
  predicate PicksUp(p: Player, c: Collectible, shift: real, frame: nat, wave: real -> real) {
    var m := ShiftedToken(c, shift);
    !m.collected && Touches(p, m, Bob(wave, frame, m))
  }

  function Gathered(p: Player, c: Collectible, shift: real, frame: nat, wave: real -> real): Collectible {
    var m := ShiftedToken(c, shift);
    if PicksUp(p, c, shift, frame, wave) then m.(collected := true) else m
  }

  function CountPickups(p: Player, cols: seq<Collectible>, shift: real, frame: nat, wave: real -> real): nat
    decreases |cols|
  {
    if |cols| == 0 then 0
    else (if PicksUp(p, cols[0], shift, frame, wave) then 1 else 0) + CountPickups(p, cols[1..], shift, frame, wave)
  }

  datatype TokenSweep = TokenSweep(done: seq<Collectible>, stats: Stats, particles: seq<Particle>)

  /** One iteration of the collectible pass: scroll, and on first touch mark
      collected, add one token and five points, and burst particles. */
  function TokenStep(t: Tuning, p: Player, shift: real, frame: nat, wave: real -> real, spray: nat -> Kick, s: TokenSweep, c: Collectible): TokenSweep {
    var m := ShiftedToken(c, shift);
    if !m.collected && Touches(p, m, Bob(wave, frame, m)) then
      TokenSweep(
        s.done + [m.(collected := true)],
        s.stats.(tokensCollected := s.stats.tokensCollected + 1, score := s.stats.score + 5),
        Burst(t, s.particles, m.x, m.y, TokenHue, spray))
    else
      TokenSweep(s.done + [m], s.stats, s.particles)
  }

  lemma TokenStepFacts(t: Tuning, p: Player, shift: real, frame: nat, wave: real -> real, spray: nat -> Kick, s: TokenSweep, c: Collectible)
    ensures var s1 := TokenStep(t, p, shift, frame, wave, spray, s, c);
            var n := if PicksUp(p, c, shift, frame, wave) then 1 else 0;
      && s1.done == s.done + [Gathered(p, c, shift, frame, wave)]
      && s1.stats.tokensCollected == s.stats.tokensCollected + n
      && s1.stats.score == s.stats.score + (if n == 1 then 5 else 0)
      && s1.stats.highScore == s.stats.highScore
      && |s1.particles| == |s.particles| + (if n == 1 then t.particleCount else 0)
      && s1.particles[..|s.particles|] == s.particles
  {
  }

  /** The collectible pass over `cols`, in list order. */
  function SweepTokens(t: Tuning, p: Player, shift: real, frame: nat, wave: real -> real, spray: nat -> Kick, s: TokenSweep, cols: seq<Collectible>): (r: TokenSweep)
    ensures |r.done| == |s.done| + |cols|
    ensures r.done[..|s.done|] == s.done
    ensures forall i :: 0 <= i < |cols| ==> r.done[|s.done| + i] == Gathered(p, cols[i], shift, frame, wave)
    ensures r.stats.tokensCollected == s.stats.tokensCollected + CountPickups(p, cols, shift, frame, wave)
    ensures r.stats.score == s.stats.score + 5 * CountPickups(p, cols, shift, frame, wave)
    ensures r.stats.highScore == s.stats.highScore
    ensures |r.particles| == |s.particles| + t.particleCount * CountPickups(p, cols, shift, frame, wave)
    ensures r.particles[..|s.particles|] == s.particles
    decreases |cols|
  {
    if |cols| == 0 then s
    else
      var s1 := TokenStep(t, p, shift, frame, wave, spray, s, cols[0]);
      var r := SweepTokens(t, p, shift, frame, wave, spray, s1, cols[1..]);
      TokenStepFacts(t, p, shift, frame, wave, spray, s, cols[0]);
      TokenSweepCompose(t, p, shift, frame, wave, s, cols, s1, r);
      r
  }

  /** The collectible pass over `cols` is its first step followed by the pass
      over the rest; this lemma carries the contract of the rest over that step. */
  lemma TokenSweepCompose(t: Tuning, p: Player, shift: real, frame: nat, wave: real -> real, s: TokenSweep, cols: seq<Collectible>, s1: TokenSweep, r: TokenSweep)
    requires |cols| > 0
    requires s1.done == s.done + [Gathered(p, cols[0], shift, frame, wave)]
    requires s1.stats.tokensCollected == s.stats.tokensCollected + (if PicksUp(p, cols[0], shift, frame, wave) then 1 else 0)
    requires s1.stats.score == s.stats.score + (if PicksUp(p, cols[0], shift, frame, wave) then 5 else 0)
    requires s1.stats.highScore == s.stats.highScore
    requires |s1.particles| == |s.particles| + (if PicksUp(p, cols[0], shift, frame, wave) then t.particleCount else 0)
    requires s1.particles[..|s.particles|] == s.particles
    requires |r.done| == |s1.done| + |cols| - 1
    requires r.done[..|s1.done|] == s1.done
    requires forall i :: 0 <= i < |cols| - 1 ==> r.done[|s1.done| + i] == Gathered(p, cols[1..][i], shift, frame, wave)
    requires r.stats.tokensCollected == s1.stats.tokensCollected + CountPickups(p, cols[1..], shift, frame, wave)
    requires r.stats.score == s1.stats.score + 5 * CountPickups(p, cols[1..], shift, frame, wave)
    requires r.stats.highScore == s1.stats.highScore
    requires |r.particles| == |s1.particles| + t.particleCount * CountPickups(p, cols[1..], shift, frame, wave)
    requires r.particles[..|s1.particles|] == s1.particles
    ensures |r.done| == |s.done| + |cols|
    ensures r.done[..|s.done|] == s.done
    ensures forall i :: 0 <= i < |cols| ==> r.done[|s.done| + i] == Gathered(p, cols[i], shift, frame, wave)
    ensures r.stats.tokensCollected == s.stats.tokensCollected + CountPickups(p, cols, shift, frame, wave)
    ensures r.stats.score == s.stats.score + 5 * CountPickups(p, cols, shift, frame, wave)
    ensures r.stats.highScore == s.stats.highScore
    ensures |r.particles| == |s.particles| + t.particleCount * CountPickups(p, cols, shift, frame, wave)
    ensures r.particles[..|s.particles|] == s.particles
  {
    BurstsAddUp(t.particleCount, PicksUp(p, cols[0], shift, frame, wave), CountPickups(p, cols[1..], shift, frame, wave));
    BurstsAddUp(5, PicksUp(p, cols[0], shift, frame, wave), CountPickups(p, cols[1..], shift, frame, wave));
    MapStep(s.done, cols, c => Gathered(p, c, shift, frame, wave), s1.done, r.done);
    PrefixOfPrefix(s.particles, s1.particles, r.particles);
  }

  /** Every token gathered on its own. */
  function GatherAll(p: Player, cols: seq<Collectible>, shift: real, frame: nat, wave: real -> real): (r: seq<Collectible>)
    ensures |r| == |cols|
    ensures forall i :: 0 <= i < |cols| ==> r[i] == Gathered(p, cols[i], shift, frame, wave)
  {
    seq(|cols|, (i: int) requires 0 <= i < |cols| => Gathered(p, cols[i], shift, frame, wave))
  }

  lemma SweepTokensGathersEach(t: Tuning, p: Player, shift: real, frame: nat, wave: real -> real, spray: nat -> Kick, stats: Stats, ps: seq<Particle>, cols: seq<Collectible>)
    ensures SweepTokens(t, p, shift, frame, wave, spray, TokenSweep([], stats, ps), cols).done == GatherAll(p, cols, shift, frame, wave)
  {
    var r := SweepTokens(t, p, shift, frame, wave, spray, TokenSweep([], stats, ps), cols);
    assert forall i :: 0 <= i < |cols| ==> r.done[0 + i] == Gathered(p, cols[i], shift, frame, wave);
  }

  /** The score effect of an obstacle pass followed by a collectible pass, as
      one frame runs them. */
  lemma PassesScore(t: Tuning, p: Player, shift: real, frame: nat, wave: real -> real, spray: nat -> Kick, st: Stats, ps: seq<Particle>, obs: seq<Obstacle>, cols: seq<Collectible>)
    ensures var os := SweepObstacles(t, p, shift, spray, ObstacleSweep([], st, ps, false), obs);
            var ts := SweepTokens(t, p, shift, frame, wave, spray, TokenSweep([], os.stats, os.particles), cols);
            var passes := CountFlips(p, obs, shift);
            var pickups := CountPickups(p, cols, shift, frame, wave);
      && ts.stats.score == st.score + passes + 5 * pickups
      && ts.stats.tokensCollected == st.tokensCollected + pickups
      && ts.stats.highScore == (if passes > 0 then Max(st.highScore, st.score + passes) else st.highScore)
  {
  }

  /** A token survives cleanup while it is on screen and not collected. */
  predicate TokenKept(c: Collectible) {
    c.x > -100.0 && !c.collected
  }
}
