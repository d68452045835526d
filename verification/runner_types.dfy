/** The entities of the endless runner (src/components/Game.tsx): the player,
    obstacles, collectible tokens, particles, the score record and the game
    lifecycle, gathered into one immutable `World`. Distances are screen pixels
    and velocities are pixels per 60 Hz frame, as mathematical reals. */
module RunnerTypes {

  /** The tuning constants the game imports (GRAVITY, MOVEMENT_SPEED,
      OBSTACLE_SPACING, OBSTACLE_WIDTH, OBSTACLE_GAP, SPAWN_TOKEN_CHANCE,
      PARTICLE_COUNT). Their values are not part of this model. */
  datatype Tuning = Tuning(
    gravity: real,
    movementSpeed: real,
    obstacleSpacing: real,
    obstacleWidth: real,
    obstacleGap: int,
    spawnTokenChance: real,
    particleCount: nat)
  {
    predicate Valid() {
      && gravity > 0.0
      && movementSpeed > 0.0
      && obstacleSpacing > 0.0
      && obstacleWidth > 0.0
      && obstacleGap > 0
      && spawnTokenChance > 0.0
      && particleCount > 0
    }
  }

  /** The canvas size in whole pixels (the window's inner size). */
  datatype Viewport = Viewport(width: nat, height: nat)

  datatype Player = Player(x: real, y: real, vy: real, radius: real, rotation: real)

  /** Cosmetic obstacle variant: it never influences collisions or scoring. */
  datatype ObstacleKind = Block | NftCard

  /** A gate: solid from the top of the field down to `topHeight` and from
      `bottomY` down to the floor, spanning `[x, x + width]` horizontally. */
  datatype Obstacle = Obstacle(x: real, topHeight: int, bottomY: int, width: real, passed: bool, kind: ObstacleKind)

  datatype CollectibleKind = Token

  datatype Collectible = Collectible(x: real, y: real, radius: real, collected: bool, kind: CollectibleKind, floatOffset: real)

  /** The two burst colours the game uses (the player colour and the token colour). */
  datatype Hue = PlayerHue | TokenHue

  datatype Particle = Particle(x: real, y: real, vx: real, vy: real, life: real, color: Hue, size: real)

  datatype Stats = Stats(score: nat, highScore: nat, tokensCollected: nat)

  datatype Phase = Start | Playing | GameOver

  /** Everything the animation loop keeps between frames. `frame` is the frame
      counter that drives the collectibles' bobbing. */
  datatype World = World(
    player: Player,
    obstacles: seq<Obstacle>,
    collectibles: seq<Collectible>,
    particles: seq<Particle>,
    stats: Stats,
    phase: Phase,
    frame: nat)

  /** Radius of every spawned token. */
  const TokenRadius: real := 18.0
  /** Smallest and largest player radius the canvas size may give. */
  const MinRadius: real := 22.0
  const MaxRadius: real := 40.0

  function Max(a: nat, b: nat): (m: nat)
    ensures m >= a && m >= b && (m == a || m == b)
  {
    if a >= b then a else b
  }

  function MaxReal(a: real, b: real): real {
    if a >= b then a else b
  }

  function MinReal(a: real, b: real): real {
    if a <= b then a else b
  }

  /** An obstacle as the spawner builds it: the gap has the configured height
      and the width is the configured width. */
  predicate Shaped(t: Tuning, o: Obstacle) {
    o.bottomY - o.topHeight == t.obstacleGap && o.width == t.obstacleWidth
  }

  /** Obstacles appear in spawn order, each at least one spacing to the right
      of every earlier one. */
  predicate Spread(t: Tuning, obs: seq<Obstacle>) {
    forall i, j :: 0 <= i < j < |obs| ==> obs[i].x + t.obstacleSpacing <= obs[j].x
  }

  /** The invariant every reachable world keeps. */
  predicate Coherent(t: Tuning, w: World) {
    && MinRadius <= w.player.radius <= MaxRadius
    && (forall o <- w.obstacles :: Shaped(t, o))
    && Spread(t, w.obstacles)
    && (forall c <- w.collectibles :: c.radius == TokenRadius)
  }
}
