/** The game's lifecycle and per-frame update (src/components/Game.tsx):
    `resetGame`, `jump`, the resize handler's radius rule, and the game-logic
    half of `update`. */
module Lifecycle {
  import opened RunnerTypes
  import opened Physics
  import opened Spawner
  import opened Collision
  import opened Seqs

  /** The world before the first frame: the player's initial ref values, empty
      lists, zero stats, START. */
  function Initial(): (w: World)
    ensures w.phase == Start && w.stats == Stats(0, 0, 0)
    ensures w.obstacles == [] && w.collectibles == [] && w.particles == []
    ensures w.player.x == 50.0 && w.player.y == 300.0 && w.player.vy == 0.0 && w.player.radius == 28.0
    ensures w.frame == 0
  {
    World(Player(50.0, 300.0, 0.0, 28.0, 0.0), [], [], [], Stats(0, 0, 0), Start, 0)
  }

  /** Start a run: place the player at 20% of the width and half the height,
      at rest, with the radius the width gives; clear every list and the run's
      stats (the high score is carried over); pre-spawn three obstacles. The
      phase is left to the caller. */
  function Reset(t: Tuning, vp: Viewport, w: World, d1: SpawnDraw, d2: SpawnDraw, d3: SpawnDraw): (r: World)
    requires t.Valid() && d1.Valid() && d2.Valid() && d3.Valid()
    ensures r.player == Player(vp.width as real * 0.2, vp.height as real / 2.0, 0.0, RadiusFor(vp.width as real), 0.0)
    ensures r.stats == Stats(0, w.stats.highScore, 0)
    ensures r.particles == [] && r.frame == 0 && r.phase == w.phase
    ensures |r.obstacles| == 3 && |r.collectibles| <= 3
    ensures r.obstacles[0].x == vp.width as real + t.obstacleSpacing
    ensures r.obstacles[1].x == vp.width as real + 2.0 * t.obstacleSpacing
    ensures r.obstacles[2].x == vp.width as real + 3.0 * t.obstacleSpacing
    ensures forall o <- r.obstacles :: !o.passed
    ensures Coherent(t, r)
  {
    var empty := Scenery([], []);
    var sc1 := Spawn(t, vp, empty, d1);
    var sc2 := Spawn(t, vp, sc1, d2);
    var sc3 := Spawn(t, vp, sc2, d3);
    SpawnKeepsLayout(t, vp, empty, d1);
    SpawnKeepsLayout(t, vp, sc1, d2);
    SpawnKeepsLayout(t, vp, sc2, d3);
    var wd := vp.width as real;
    var sp := t.obstacleSpacing;
    assert sc1.obstacles[0].x == wd + sp;
    assert sc2.obstacles[0] == sc1.obstacles[0] by {
      assert sc2.obstacles[..1] == sc1.obstacles;
    }
    assert sc2.obstacles[1].x == wd + 2.0 * sp;
    assert sc3.obstacles[..2] == sc2.obstacles;
    assert sc3.obstacles[0] == sc2.obstacles[0] && sc3.obstacles[1] == sc2.obstacles[1];
    assert sc3.obstacles[2].x == wd + 3.0 * sp;
    assert sc3.obstacles == [sc3.obstacles[0], sc3.obstacles[1], sc3.obstacles[2]];
    World(
      Player(vp.width as real * 0.2, vp.height as real / 2.0, 0.0, RadiusFor(vp.width as real), 0.0),
      sc3.obstacles, sc3.collectibles, [], Stats(0, w.stats.highScore, 0), w.phase, 0)
  }

  /** A reset forgets everything of the previous run but the high score. */
  lemma ResetForgetsRun(t: Tuning, vp: Viewport, w1: World, w2: World, d1: SpawnDraw, d2: SpawnDraw, d3: SpawnDraw)
    requires t.Valid() && d1.Valid() && d2.Valid() && d3.Valid()
    requires w1.stats.highScore == w2.stats.highScore && w1.phase == w2.phase
    ensures Reset(t, vp, w1, d1, d2, d3) == Reset(t, vp, w2, d1, d2, d3)
  {
  }

  /** On an 800 x 600 canvas a new run puts the player at (160, 300) with the
      largest radius, and the third obstacle at least two spacings beyond the
      right edge. */
  lemma FreshRunOn800By600(t: Tuning, w: World, d1: SpawnDraw, d2: SpawnDraw, d3: SpawnDraw)
    requires t.Valid() && d1.Valid() && d2.Valid() && d3.Valid()
    ensures var r := Reset(t, Viewport(800, 600), w, d1, d2, d3);
      && r.player.x == 160.0 && r.player.y == 300.0 && r.player.radius == MaxRadius
      && r.obstacles[2].x >= 2.0 * t.obstacleSpacing + 800.0
  {
  }

  /** The jump input. While playing it sets the vertical velocity to the jump
      impulse and changes nothing else; before the first run or after a game
      over it starts a new run. */
  function Jump(t: Tuning, vp: Viewport, w: World, d1: SpawnDraw, d2: SpawnDraw, d3: SpawnDraw): (r: World)
    requires t.Valid() && d1.Valid() && d2.Valid() && d3.Valid()
    ensures w.phase == Playing ==> r == w.(player := w.player.(vy := JumpImpulse))
    ensures w.phase != Playing ==>
      && r.phase == Playing
      && r.player == Player(vp.width as real * 0.2, vp.height as real / 2.0, 0.0, RadiusFor(vp.width as real), 0.0)
      && r.stats == Stats(0, w.stats.highScore, 0)
      && r.particles == [] && r.frame == 0
      && |r.obstacles| == 3 && |r.collectibles| <= 3
      && r.obstacles[0].x == vp.width as real + t.obstacleSpacing
      && r.obstacles[1].x == vp.width as real + 2.0 * t.obstacleSpacing
      && r.obstacles[2].x == vp.width as real + 3.0 * t.obstacleSpacing
      && (forall o <- r.obstacles :: !o.passed)
      && Coherent(t, r)
  {
    if w.phase == Playing then
      w.(player := w.player.(vy := JumpImpulse))
    else
      Reset(t, vp, w, d1, d2, d3).(phase := Playing)
  }

  /** Jumping twice in one frame is the same as jumping once: the impulse
      replaces the velocity rather than adding to it. */
  lemma JumpReplacesVelocity(t: Tuning, vp: Viewport, w: World, d1: SpawnDraw, d2: SpawnDraw, d3: SpawnDraw)
    requires t.Valid() && d1.Valid() && d2.Valid() && d3.Valid()
    requires w.phase == Playing
    ensures Jump(t, vp, Jump(t, vp, w, d1, d2, d3), d1, d2, d3) == Jump(t, vp, w, d1, d2, d3)
  {
  }

  /** The canvas was resized: the player's radius follows the new width and
      nothing else changes. */
  function Resize(w: World, vp: Viewport): (r: World)
    ensures r.player.radius == RadiusFor(vp.width as real)
    ensures r == w.(player := w.player.(radius := r.player.radius))
  {
    w.(player := w.player.(radius := RadiusFor(vp.width as real)))
  }

  /** The outcome of one frame: the new world and whether the frame raised
      GAME_OVER. Raising it does not cut the frame short. */
  datatype TickResult = TickResult(world: World, gameOverRaised: bool)

  /** Horizontal distance everything scrolls in `dt` frames. */
  function Scroll(t: Tuning, dt: real): real {
    t.movementSpeed * dt
  }

  /** The player after the physics part of a frame. */
  function Moved(t: Tuning, vp: Viewport, w: World, dt: real): Fallen {
    Fall(t.gravity, w.player, vp.height as real, dt)
  }

  /** Obstacles and tokens after the lookahead spawn of a frame. */
  function Stocked(t: Tuning, vp: Viewport, w: World, d: SpawnDraw): Scenery
    requires t.Valid() && d.Valid()
  {
    Replenish(t, vp, Scenery(w.obstacles, w.collectibles), d)
  }

  /** Particles after the physics part of a frame: a floor hit bursts at the
      point where the player was put back onto the floor. */
  function FloorParticles(t: Tuning, vp: Viewport, w: World, dt: real, spray: nat -> Kick): seq<Particle> {
    var fallen := Moved(t, vp, w, dt);
    if fallen.floorHit then Burst(t, w.particles, fallen.player.x, vp.height as real - fallen.player.radius, PlayerHue, spray)
    else w.particles
  }

  /** The obstacle pass of a PLAYING frame. */
  function ObstaclePass(t: Tuning, vp: Viewport, w: World, dt: real, d: SpawnDraw, spray: nat -> Kick): ObstacleSweep
    requires t.Valid() && d.Valid()
  {
    SweepObstacles(t, Moved(t, vp, w, dt).player, Scroll(t, dt), spray,
      ObstacleSweep([], w.stats, FloorParticles(t, vp, w, dt, spray), false), Stocked(t, vp, w, d).obstacles)
  }

  /** The collectible pass of a PLAYING frame, which continues from the stats
      and particles the obstacle pass left. */
  function TokenPass(t: Tuning, vp: Viewport, w: World, dt: real, d: SpawnDraw, wave: real -> real, spray: nat -> Kick): TokenSweep
    requires t.Valid() && d.Valid()
  {
    var os := ObstaclePass(t, vp, w, dt, d, spray);
    SweepTokens(t, Moved(t, vp, w, dt).player, Scroll(t, dt), w.frame + 1, wave, spray,
      TokenSweep([], os.stats, os.particles), Stocked(t, vp, w, d).collectibles)
  }

  /** One frame while PLAYING, in the order `update` runs its steps: player physics with the
      floor and ceiling checks, the lookahead spawn, the obstacle pass and its
      cleanup, the collectible pass and its cleanup, the particle update and
      its cleanup. */
  function Play(t: Tuning, vp: Viewport, w: World, dt: real, d: SpawnDraw, wave: real -> real, spray: nat -> Kick): (r: TickResult)
    requires t.Valid() && d.Valid()
    ensures r.gameOverRaised <==> Moved(t, vp, w, dt).floorHit || ObstaclePass(t, vp, w, dt, d, spray).crashed
    ensures r.world.phase == if r.gameOverRaised then GameOver else w.phase
    ensures r.world.frame == w.frame + 1
    ensures forall i :: 0 <= i < |r.world.obstacles| ==> ObstacleOnScreen(r.world.obstacles[i])
    ensures forall i :: 0 <= i < |r.world.collectibles| ==> TokenKept(r.world.collectibles[i])
    ensures forall i :: 0 <= i < |r.world.particles| ==> Alive(r.world.particles[i])
  {
    var os := ObstaclePass(t, vp, w, dt, d, spray);
    var ts := TokenPass(t, vp, w, dt, d, wave, spray);
    var raised := Moved(t, vp, w, dt).floorHit || os.crashed;
    TickResult(
      World(
        Moved(t, vp, w, dt).player,
        Filter(os.done, ObstacleOnScreen),
        Filter(ts.done, TokenKept),
        Filter(DriftAll(dt, ts.particles), Alive),
        ts.stats,
        if raised then GameOver else w.phase,
        w.frame + 1),
      raised)
  }

  /** One call of the animation loop: the frame counter always advances; the
      rest of the world changes only while PLAYING. */
  function Tick(t: Tuning, vp: Viewport, w: World, dt: real, d: SpawnDraw, wave: real -> real, spray: nat -> Kick): (r: TickResult)
    requires t.Valid() && d.Valid()
    ensures r.world.frame == w.frame + 1
    ensures r.world.phase == if r.gameOverRaised then GameOver else w.phase
    ensures w.phase != Playing ==> !r.gameOverRaised && r.world == w.(frame := w.frame + 1)
  {
    if w.phase == Playing then Play(t, vp, w, dt, d, wave, spray)
    else TickResult(w.(frame := w.frame + 1), false)
  }
}
