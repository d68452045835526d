/** Player kinematics and particle effects of the game loop
    (src/components/Game.tsx, the physics half of `update` and `spawnParticles`). */
module Physics {
  import opened RunnerTypes

  /** Math.PI / 4 as Game.tsx evaluates it in double precision. */
  const QuarterPi: real := 0.7853981633974483
  /** Gravity is scaled by this damping factor each frame. */
  const GravityDamping: real := 0.6
  /** Rotation is this multiple of the vertical velocity, within ±π/4. */
  const TiltPerSpeed: real := 0.08
  /** The player is never allowed above this y. */
  const CeilingY: real := -100.0
  /** Velocity a jump sets, replacing whatever velocity the player had. */
  const JumpImpulse: real := -6.0
  /** Life a particle loses per frame, and the downward pull on it. */
  const ParticleFade: real := 0.02
  const ParticlePull: real := 0.1

  /** Player radius for a canvas width: 6% of the width, kept within
      [22, 40] pixels. */
  function RadiusFor(width: real): (r: real)
    ensures MinRadius <= r <= MaxRadius
    ensures MinRadius <= width * 0.06 <= MaxRadius ==> r == width * 0.06
    ensures width * 0.06 < MinRadius ==> r == MinRadius
    ensures width * 0.06 > MaxRadius ==> r == MaxRadius
  {
    MaxReal(MinRadius, MinReal(MaxRadius, width * 0.06))
  }

  /** A wider canvas never gives a smaller player. */
  lemma RadiusGrowsWithWidth(a: real, b: real)
    requires a <= b
    ensures RadiusFor(a) <= RadiusFor(b)
  {
  }

  /** Rotation of the player sprite for a vertical velocity. */
  function Tilt(vy: real): (r: real)
    ensures -QuarterPi <= r <= QuarterPi
    ensures -QuarterPi <= vy * TiltPerSpeed <= QuarterPi ==> r == vy * TiltPerSpeed
    ensures vy * TiltPerSpeed > QuarterPi ==> r == QuarterPi
    ensures vy * TiltPerSpeed < -QuarterPi ==> r == -QuarterPi
  {
    MinReal(QuarterPi, MaxReal(-QuarterPi, vy * TiltPerSpeed))
  }

  /** Velocity after one frame of damped gravity. */
  function Accelerated(g: real, vy: real, dt: real): real {
    vy + g * dt * GravityDamping
  }

  /** The outcome of one frame of player physics: the new player and whether
      the player touched the floor (which ends the run). */
  datatype Fallen = Fallen(player: Player, floorHit: bool)

  /** Integrate gravity and velocity for `dt` frames, clamp the player onto the
      floor at `floorY` (reporting the hit) and then under the ceiling (which
      stops the player without ending the run). */
  function Fall(g: real, p: Player, floorY: real, dt: real): (r: Fallen)
    ensures var vy := Accelerated(g, p.vy, dt);
            var y := p.y + vy * dt;
      && (r.floorHit <==> y + p.radius > floorY)
      && r.player.x == p.x && r.player.radius == p.radius
      && r.player.rotation == Tilt(vy)
      && CeilingY <= r.player.y
      && (r.player.y <= floorY - p.radius || r.player.y == CeilingY)
      && var y1 := if r.floorHit then floorY - p.radius else y;
      && (y1 < CeilingY ==> r.player.y == CeilingY && r.player.vy == 0.0)
      && (y1 >= CeilingY ==> r.player.y == y1 && r.player.vy == vy)
  {
    var vy := Accelerated(g, p.vy, dt);
    var y := p.y + vy * dt;
    var floorHit := y + p.radius > floorY;
    var y1 := if floorHit then floorY - p.radius else y;
    var stopped := y1 < CeilingY;
    Fallen(
      Player(p.x, if stopped then CeilingY else y1, if stopped then 0.0 else vy, p.radius, Tilt(vy)),
      floorHit)
  }

  /** A player whose lowest point is one pixel below the floor line (already
      inside the floor band, since y grows downward) and who is not rising
      hits the floor on the next frame, for any positive gravity and frame time. */
  lemma SinkingOntoFloorHits(g: real, p: Player, floorY: real, dt: real)
    requires g > 0.0 && dt > 0.0 && p.vy >= 0.0
    requires p.y == floorY - p.radius + 1.0
    ensures Fall(g, p, floorY, dt).floorHit
  {
    var vy := Accelerated(g, p.vy, dt);
    assert g * dt > 0.0;
    assert vy > 0.0;
    assert vy * dt > 0.0;
  }

  /** The random part of a particle: its velocity and size. */
  datatype Kick = Kick(vx: real, vy: real, size: real)

  function Spark(x: real, y: real, color: Hue, k: Kick): Particle {
    Particle(x, y, k.vx, k.vy, 1.0, color, k.size)
  }

  /** `n` new particles at (x, y), the k-th of them drawing its velocity and
      size from `spray(from + k)`. */
  function Sparks(x: real, y: real, color: Hue, spray: nat -> Kick, from: nat, n: nat): (r: seq<Particle>)
    ensures |r| == n
    ensures forall j :: 0 <= j < n ==> r[j] == Spark(x, y, color, spray(from + j))
    decreases n
  {
    if n == 0 then [] else [Spark(x, y, color, spray(from))] + Sparks(x, y, color, spray, from + 1, n - 1)
  }

  /** Append the configured number of new particles at (x, y), at full life.
      `spray` supplies the random velocity and size of the particle that lands
      at each index. */
  function Burst(t: Tuning, ps: seq<Particle>, x: real, y: real, color: Hue, spray: nat -> Kick): (r: seq<Particle>)
    ensures |r| == |ps| + t.particleCount
    ensures r[..|ps|] == ps
    ensures forall j :: |ps| <= j < |r| ==> r[j].x == x && r[j].y == y && r[j].life == 1.0 && r[j].color == color
  {
    ps + Sparks(x, y, color, spray, |ps|, t.particleCount)
  }

  /** One frame of particle motion: move by the velocity, fade, and fall. */
  function Drift(dt: real, p: Particle): Particle {
    p.(x := p.x + p.vx * dt, y := p.y + p.vy * dt, life := p.life - ParticleFade * dt, vy := p.vy + ParticlePull * dt)
  }

  /** Every particle drifts by one frame, in place. */
  function DriftAll(dt: real, ps: seq<Particle>): (r: seq<Particle>)
    ensures |r| == |ps|
    ensures forall i :: 0 <= i < |ps| ==> r[i] == Drift(dt, ps[i])
  {
    seq(|ps|, (i: int) requires 0 <= i < |ps| => Drift(dt, ps[i]))
  }

  /** A particle is removed once its life is used up. */
  predicate Alive(p: Particle) {
    p.life > 0.0
  }

  /** A particle's life strictly decreases on every frame of positive length. */
  lemma DriftFades(p: Particle, dt: real)
    requires dt > 0.0
    ensures Drift(dt, p).life < p.life
    ensures Drift(dt, p).color == p.color && Drift(dt, p).size == p.size
  {
  }
}
