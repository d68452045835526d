/** Properties of whole frames and of whole sessions of the runner: the world
    invariant is kept, the score and high score only grow, GAME_OVER is raised
    exactly on a floor hit or an obstacle strike, and the cleanup filters keep
    exactly the advanced entities still in play. */
module RunnerProperties {
  import opened RunnerTypes
  import opened Physics
  import opened Spawner
  import opened Collision
  import opened Seqs
  import opened Lifecycle

  /* ---------------------------------------------------------------------
     The obstacle layout through a frame
     --------------------------------------------------------------------- */

  /** Scrolling every obstacle by the same distance keeps shapes and spacing. */
  lemma AdvanceKeepsLayout(t: Tuning, p: Player, obs: seq<Obstacle>, shift: real)
    requires forall o <- obs :: Shaped(t, o)
    requires Spread(t, obs)
    ensures var a := AdvanceAll(p, obs, shift);
      (forall o <- a :: Shaped(t, o)) && Spread(t, a)
  {
    var a := AdvanceAll(p, obs, shift);
    forall o | o in a ensures Shaped(t, o) {
      var i :| 0 <= i < |a| && a[i] == o;
      assert Shaped(t, obs[i]);
    }
    forall i, j | 0 <= i < j < |a| ensures a[i].x + t.obstacleSpacing <= a[j].x {
      assert obs[i].x + t.obstacleSpacing <= obs[j].x;
    }
  }

  /** Cleanup keeps shapes and spacing. */
  lemma FilterKeepsLayout(t: Tuning, obs: seq<Obstacle>, keep: Obstacle -> bool)
    requires forall o <- obs :: Shaped(t, o)
    requires Spread(t, obs)
    ensures var r := Filter(obs, keep);
      (forall o <- r :: Shaped(t, o)) && Spread(t, r)
  {
    var before := (a: Obstacle, b: Obstacle) => a.x + t.obstacleSpacing <= b.x;
    assert forall i, j :: 0 <= i < j < |obs| ==> before(obs[i], obs[j]);
    FilterKeepsPairwise(obs, keep, before);
    var r := Filter(obs, keep);
    assert forall i, j :: 0 <= i < j < |r| ==> before(r[i], r[j]);
    forall o | o in r ensures Shaped(t, o) {
      var i :| 0 <= i < |r| && r[i] == o;
    }
  }

  lemma ReplenishKeepsLayout(t: Tuning, vp: Viewport, sc: Scenery, d: SpawnDraw)
    requires t.Valid() && d.Valid()
    requires forall o <- sc.obstacles :: Shaped(t, o)
    requires Spread(t, sc.obstacles)
    requires forall c <- sc.collectibles :: c.radius == TokenRadius
    ensures var r := Replenish(t, vp, sc, d);
      && (forall o <- r.obstacles :: Shaped(t, o))
      && Spread(t, r.obstacles)
      && (forall c <- r.collectibles :: c.radius == TokenRadius)
  {
    if NeedsSpawn(t, vp, sc.obstacles) {
      SpawnKeepsLayout(t, vp, sc, d);
    }
  }

  /* ---------------------------------------------------------------------
     One frame
     --------------------------------------------------------------------- */

  /** The obstacles a PLAYING frame leaves behind are the on-screen ones among
      the frame's obstacles, each advanced on its own, in order. */
  lemma PlayCleansObstacles(t: Tuning, vp: Viewport, w: World, dt: real, d: SpawnDraw, wave: real -> real, spray: nat -> Kick)
    requires t.Valid() && d.Valid() && w.phase == Playing
    ensures var r := Tick(t, vp, w, dt, d, wave, spray).world;
            var p := Moved(t, vp, w, dt).player;
      && r.player == p
      && r.obstacles == Filter(AdvanceAll(p, Stocked(t, vp, w, d).obstacles, Scroll(t, dt)), ObstacleOnScreen)
  {
    SweepObstaclesAdvancesEach(t, Moved(t, vp, w, dt).player, Scroll(t, dt), spray, w.stats, FloorParticles(t, vp, w, dt, spray), false, Stocked(t, vp, w, d).obstacles);
  }

  lemma TokenPassGathersEach(t: Tuning, vp: Viewport, w: World, dt: real, d: SpawnDraw, wave: real -> real, spray: nat -> Kick)
    requires t.Valid() && d.Valid()
    ensures TokenPass(t, vp, w, dt, d, wave, spray).done
         == GatherAll(Moved(t, vp, w, dt).player, Stocked(t, vp, w, d).collectibles, Scroll(t, dt), w.frame + 1, wave)
  {
    var os := ObstaclePass(t, vp, w, dt, d, spray);
    var p := Moved(t, vp, w, dt).player;
    var cols := Stocked(t, vp, w, d).collectibles;
    var ts := SweepTokens(t, p, Scroll(t, dt), w.frame + 1, wave, spray, TokenSweep([], os.stats, os.particles), cols);
    assert TokenPass(t, vp, w, dt, d, wave, spray) == ts;
    SweepTokensGathersEach(t, p, Scroll(t, dt), w.frame + 1, wave, spray, os.stats, os.particles, cols);
  }

  lemma PlayKeepsTokenPass(t: Tuning, vp: Viewport, w: World, dt: real, d: SpawnDraw, wave: real -> real, spray: nat -> Kick)
    requires t.Valid() && d.Valid() && w.phase == Playing
    ensures var ts := TokenPass(t, vp, w, dt, d, wave, spray);
            var r := Tick(t, vp, w, dt, d, wave, spray).world;
      r.collectibles == Filter(ts.done, TokenKept) && r.stats == ts.stats
  {
  }

  /** The tokens a PLAYING frame leaves behind are the on-screen, uncollected
      ones among the frame's tokens, each gathered on its own, in order. */
  lemma PlayCleansTokens(t: Tuning, vp: Viewport, w: World, dt: real, d: SpawnDraw, wave: real -> real, spray: nat -> Kick)
    requires t.Valid() && d.Valid() && w.phase == Playing
    ensures var r := Tick(t, vp, w, dt, d, wave, spray).world;
      r.collectibles == Filter(GatherAll(Moved(t, vp, w, dt).player, Stocked(t, vp, w, d).collectibles, Scroll(t, dt), w.frame + 1, wave), TokenKept)
  {
    TokenPassGathersEach(t, vp, w, dt, d, wave, spray);
    PlayKeepsTokenPass(t, vp, w, dt, d, wave, spray);
  }

  /** The particles a PLAYING frame leaves behind are exactly the live ones
      among the frame's particles after they drift, in order. */
  lemma PlayKeepsLiveParticles(t: Tuning, vp: Viewport, w: World, dt: real, d: SpawnDraw, wave: real -> real, spray: nat -> Kick)
    requires t.Valid() && d.Valid() && w.phase == Playing
    ensures Tick(t, vp, w, dt, d, wave, spray).world.particles
         == Filter(DriftAll(dt, TokenPass(t, vp, w, dt, d, wave, spray).particles), Alive)
    ensures forall q <- Tick(t, vp, w, dt, d, wave, spray).world.particles :: Alive(q)
  {
  }

  lemma TokenPassScores(t: Tuning, vp: Viewport, w: World, dt: real, d: SpawnDraw, wave: real -> real, spray: nat -> Kick)
    requires t.Valid() && d.Valid()
    ensures var st := TokenPass(t, vp, w, dt, d, wave, spray).stats;
            var p := Moved(t, vp, w, dt).player;
            var sc := Stocked(t, vp, w, d);
            var passes := CountFlips(p, sc.obstacles, Scroll(t, dt));
            var pickups := CountPickups(p, sc.collectibles, Scroll(t, dt), w.frame + 1, wave);
      && st.score == w.stats.score + passes + 5 * pickups
      && st.tokensCollected == w.stats.tokensCollected + pickups
      && st.highScore == (if passes > 0 then Max(w.stats.highScore, w.stats.score + passes) else w.stats.highScore)
  {
    var p := Moved(t, vp, w, dt).player;
    var sc := Stocked(t, vp, w, d);
    var os := ObstaclePass(t, vp, w, dt, d, spray);
    assert TokenPass(t, vp, w, dt, d, wave, spray)
        == SweepTokens(t, p, Scroll(t, dt), w.frame + 1, wave, spray, TokenSweep([], os.stats, os.particles), sc.collectibles);
    PassesScore(t, p, Scroll(t, dt), w.frame + 1, wave, spray, w.stats, FloorParticles(t, vp, w, dt, spray), sc.obstacles, sc.collectibles);
  }

  /** Scoring in one PLAYING frame: one point per obstacle passed for the first
      time, five per token picked up; tokens count the pickups; the high score
      follows the score only through obstacle passes. */
  lemma PlayScores(t: Tuning, vp: Viewport, w: World, dt: real, d: SpawnDraw, wave: real -> real, spray: nat -> Kick)
    requires t.Valid() && d.Valid() && w.phase == Playing
    ensures var r := Tick(t, vp, w, dt, d, wave, spray).world;
            var p := Moved(t, vp, w, dt).player;
            var sc := Stocked(t, vp, w, d);
            var passes := CountFlips(p, sc.obstacles, Scroll(t, dt));
            var pickups := CountPickups(p, sc.collectibles, Scroll(t, dt), w.frame + 1, wave);
      && r.stats.score == w.stats.score + passes + 5 * pickups
      && r.stats.tokensCollected == w.stats.tokensCollected + pickups
      && r.stats.highScore == (if passes > 0 then Max(w.stats.highScore, w.stats.score + passes) else w.stats.highScore)
  {
    PlayKeepsTokenPass(t, vp, w, dt, d, wave, spray);
    TokenPassScores(t, vp, w, dt, d, wave, spray);
  }

  /** GAME_OVER is raised in a PLAYING frame exactly when the player reaches the
      floor or strikes one of the frame's obstacles after they scroll. */
  lemma PlayEndsRunExactly(t: Tuning, vp: Viewport, w: World, dt: real, d: SpawnDraw, wave: real -> real, spray: nat -> Kick)
    requires t.Valid() && d.Valid() && w.phase == Playing
    ensures var r := Tick(t, vp, w, dt, d, wave, spray);
            var fallen := Moved(t, vp, w, dt);
            var sc := Stocked(t, vp, w, d);
      && (r.gameOverRaised <==>
            fallen.floorHit || exists i :: 0 <= i < |sc.obstacles| && Strikes(fallen.player, Shifted(sc.obstacles[i], Scroll(t, dt))))
      && (r.world.phase == GameOver <==> r.gameOverRaised)
  {
    var fallen := Moved(t, vp, w, dt);
    var sc := Stocked(t, vp, w, d);
    StrikesCounted(fallen.player, sc.obstacles, Scroll(t, dt));
    var os := ObstaclePass(t, vp, w, dt, d, spray);
    assert Tick(t, vp, w, dt, d, wave, spray).gameOverRaised == (fallen.floorHit || os.crashed);
  }

  /** A player whose lowest point is one pixel below the floor line (already
      inside the floor band, since y grows downward) and who is not rising ends
      the run on the next frame of positive length. */
  lemma SinkingPlayerEndsRun(t: Tuning, vp: Viewport, w: World, dt: real, d: SpawnDraw, wave: real -> real, spray: nat -> Kick)
    requires t.Valid() && d.Valid() && w.phase == Playing && dt > 0.0
    requires w.player.vy >= 0.0 && w.player.y == vp.height as real - w.player.radius + 1.0
    ensures Tick(t, vp, w, dt, d, wave, spray).gameOverRaised
    ensures Tick(t, vp, w, dt, d, wave, spray).world.phase == GameOver
  {
    SinkingOntoFloorHits(t.gravity, w.player, vp.height as real, dt);
  }

  /** No frame lowers the score, the high score or the token count. */
  lemma TickNeverLowersStats(t: Tuning, vp: Viewport, w: World, dt: real, d: SpawnDraw, wave: real -> real, spray: nat -> Kick)
    requires t.Valid() && d.Valid()
    ensures var r := Tick(t, vp, w, dt, d, wave, spray).world;
      && r.stats.score >= w.stats.score
      && r.stats.highScore >= w.stats.highScore
      && r.stats.tokensCollected >= w.stats.tokensCollected
  {
    if w.phase == Playing {
      PlayScores(t, vp, w, dt, d, wave, spray);
    }
  }

  /** Every frame keeps the world invariant. */
  lemma TickKeepsCoherent(t: Tuning, vp: Viewport, w: World, dt: real, d: SpawnDraw, wave: real -> real, spray: nat -> Kick)
    requires t.Valid() && d.Valid() && Coherent(t, w)
    ensures Coherent(t, Tick(t, vp, w, dt, d, wave, spray).world)
  {
    if w.phase == Playing {
      var p := Moved(t, vp, w, dt).player;
      var sc := Stocked(t, vp, w, d);
      var shift := Scroll(t, dt);
      var r := Tick(t, vp, w, dt, d, wave, spray).world;
      PlayCleansObstacles(t, vp, w, dt, d, wave, spray);
      PlayCleansTokens(t, vp, w, dt, d, wave, spray);
      ReplenishKeepsLayout(t, vp, Scenery(w.obstacles, w.collectibles), d);
      AdvanceKeepsLayout(t, p, sc.obstacles, shift);
      FilterKeepsLayout(t, AdvanceAll(p, sc.obstacles, shift), ObstacleOnScreen);
      var g := GatherAll(p, sc.collectibles, shift, w.frame + 1, wave);
      forall c | c in r.collectibles ensures c.radius == TokenRadius {
        var i :| 0 <= i < |r.collectibles| && r.collectibles[i] == c;
        assert c in g;
        var k :| 0 <= k < |g| && g[k] == c;
        assert sc.collectibles[k] in sc.collectibles;
      }
    }
  }

  /** The initial world satisfies the invariant. */
  lemma InitialIsCoherent(t: Tuning)
    ensures Coherent(t, Initial())
  {
  }

  /** A jump keeps the invariant, whether it kicks the player or starts a run. */
  lemma JumpKeepsCoherent(t: Tuning, vp: Viewport, w: World, d1: SpawnDraw, d2: SpawnDraw, d3: SpawnDraw)
    requires t.Valid() && d1.Valid() && d2.Valid() && d3.Valid() && Coherent(t, w)
    ensures Coherent(t, Jump(t, vp, w, d1, d2, d3))
  {
  }

  /* ---------------------------------------------------------------------
     Whole sessions
     --------------------------------------------------------------------- */

  /** One event the game reacts to: an animation frame, the jump input, or a
      canvas resize, with the random draws each consumes. */
  datatype Event =
    | Frame(dt: real, draw: SpawnDraw, wave: real -> real, spray: nat -> Kick)
    | Press(d1: SpawnDraw, d2: SpawnDraw, d3: SpawnDraw)
    | Resized(size: Viewport)

  predicate Admissible(e: Event) {
    match e
    case Frame(_, draw, _, _) => draw.Valid()
    case Press(d1, d2, d3) => d1.Valid() && d2.Valid() && d3.Valid()
    case Resized(_) => true
  }

  /** Apply one event on a canvas of size `vp`; a resize also changes the size
      later events see. */
  function Step(t: Tuning, vp: Viewport, w: World, e: Event): (Viewport, World)
    requires t.Valid() && Admissible(e)
  {
    match e
    case Frame(dt, draw, wave, spray) => (vp, Tick(t, vp, w, dt, draw, wave, spray).world)
    case Press(d1, d2, d3) => (vp, Jump(t, vp, w, d1, d2, d3))
    case Resized(size) => (size, Resize(w, size))
  }

  /** Apply a sequence of events in order. */
  function Run(t: Tuning, vp: Viewport, w: World, es: seq<Event>): (r: World)
    requires t.Valid() && forall i :: 0 <= i < |es| ==> Admissible(es[i])
    decreases |es|
  {
    if |es| == 0 then w
    else
      var (vp1, w1) := Step(t, vp, w, es[0]);
      Run(t, vp1, w1, es[1..])
  }

  /** Every world reachable from a coherent one is coherent. */
  lemma {:induction false} RunKeepsCoherent(t: Tuning, vp: Viewport, w: World, es: seq<Event>)
    requires t.Valid() && forall i :: 0 <= i < |es| ==> Admissible(es[i])
    requires Coherent(t, w)
    ensures Coherent(t, Run(t, vp, w, es))
    decreases |es|
  {
    if |es| > 0 {
      var (vp1, w1) := Step(t, vp, w, es[0]);
      match es[0] {
        case Frame(dt, draw, wave, spray) => TickKeepsCoherent(t, vp, w, dt, draw, wave, spray);
        case Press(d1, d2, d3) => JumpKeepsCoherent(t, vp, w, d1, d2, d3);
        case Resized(size) =>
      }
      assert forall i :: 0 <= i < |es[1..]| ==> Admissible(es[1..][i]) by {
        forall i | 0 <= i < |es[1..]| ensures Admissible(es[1..][i]) {
          assert es[1..][i] == es[i + 1];
        }
      }
      RunKeepsCoherent(t, vp1, w1, es[1..]);
    }
  }

  /** The high score never goes down over a session, across game overs and
      restarts alike. */
  lemma {:induction false} RunKeepsHighScore(t: Tuning, vp: Viewport, w: World, es: seq<Event>)
    requires t.Valid() && forall i :: 0 <= i < |es| ==> Admissible(es[i])
    ensures Run(t, vp, w, es).stats.highScore >= w.stats.highScore
    decreases |es|
  {
    if |es| > 0 {
      var (vp1, w1) := Step(t, vp, w, es[0]);
      match es[0] {
        case Frame(dt, draw, wave, spray) => TickNeverLowersStats(t, vp, w, dt, draw, wave, spray);
        case Press(d1, d2, d3) =>
        case Resized(size) =>
      }
      assert forall i :: 0 <= i < |es[1..]| ==> Admissible(es[1..][i]) by {
        forall i | 0 <= i < |es[1..]| ensures Admissible(es[1..][i]) {
          assert es[1..][i] == es[i + 1];
        }
      }
      RunKeepsHighScore(t, vp1, w1, es[1..]);
    }
  }
}
