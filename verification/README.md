# Endless runner: a Dafny model of the game loop and its two server rules

This project models the core of an endless-runner arcade game and proves
properties of the model. The player is a circle that falls under damped
gravity, jumps on input, and flies through scrolling gates (obstacles) while
picking up tokens. The model covers:

- **the per-frame simulation** of `src/components/Game.tsx`: spawning
  obstacles and tokens, resetting a run, the jump input that also drives the
  START / PLAYING / GAME_OVER lifecycle, and the game-logic half of `update`
  (physics, floor and ceiling, obstacle strikes, scoring, token pickup,
  particles and the order-preserving cleanup filters);
- **the user-record merge rule** of `api/user.ts`, over a key-value store
  modelled as `map<string, UserRecord>`;
- **the leaderboard selection** of `api/leaderboard.ts`: collect the stored
  records, sort them by descending score, keep at most fifty.

Every operation is a pure function over immutable datatypes.

- Numbers are mathematical `real`s. Gate heights and counters are `int`/`nat`.
- The tuning constants (GRAVITY, MOVEMENT_SPEED, OBSTACLE_SPACING,
  OBSTACLE_WIDTH, OBSTACLE_GAP, SPAWN_TOKEN_CHANCE, PARTICLE_COUNT) live in a
  file that is not part of this model. They are the fields of a `Tuning`
  record, assumed positive. OBSTACLE_GAP is a whole number of pixels, so gate
  edges stay integers.
- Each `Math.random()` draw of a spawn is an explicit parameter in [0, 1)
  (`SpawnDraw`).
- `Math.sin` is a function parameter `wave`.
- The distance test's square root is replaced by an exactly equivalent
  comparison of squares (`Collision.TouchesIsDistanceTest`).
- The random velocity and size of each particle come from a `spray` oracle.
- A frame returns a `gameOverRaised` flag next to the new world. Raising
  GAME_OVER does not cut the frame short: the remaining passes still run, and
  the phase becomes GAME_OVER at the end of the frame.

Modules: `RunnerTypes` (entities and the world invariant `Coherent`),
`Seqs` (order-preserving filter), `Physics`, `Spawner`, `Collision`,
`Lifecycle` (reset, jump, resize, tick), `RunnerProperties` (frame and
session properties), `UserApi`, `Leaderboard`, and `Wrappers` (`Option`).

## Model

| member | source | states |
|---|---|---|
| Spawner.TopHeight | src/components/Game.tsx:79-81 | the gate's top edge is a whole number in [50, h − gap − 50] whenever that range is non-empty |
| Spawner.EveryTopHeightReachable | src/components/Game.tsx:79-81 | every whole number in [50, h − gap − 50] is produced by some draw in [0, 1), so no part of the range is missed |
| Spawner.Spawn | src/components/Game.tsx:78-107 | exactly one obstacle is appended and existing ones are untouched; its x is at least the canvas width and at least the previous last x plus the spacing, and equals one of the two; gap and width are the constants; it starts unpassed; a token is added exactly when the draw is under the chance, at x + width/2, mid-gap, radius 18, uncollected |
| Spawner.SpawnedTokenInGap | src/components/Game.tsx:97-106 | a spawned token lies strictly inside its obstacle's columns and strictly between the gate edges, equidistant from both |
| Spawner.Replenish | src/components/Game.tsx:218-221 | a spawn happens exactly when the list is empty or the last obstacle is left of width − spacing; afterwards the list is non-empty and its last x is at least width − spacing |
| Spawner.SpawnKeepsLayout | src/components/Game.tsx:83-95 | spawning keeps every obstacle's gap and width constant and keeps every obstacle at least one spacing right of all earlier ones |
| Physics.RadiusFor | src/components/Game.tsx:421 | the player radius is 6% of the canvas width clamped to [22, 40], with each of the three cases stated |
| Physics.RadiusGrowsWithWidth | src/components/Game.tsx:421 | a wider canvas never gives a smaller radius |
| Physics.Tilt | src/components/Game.tsx:203 | rotation always lies in [−π/4, π/4] and equals 0.08·vy inside that band |
| Physics.Fall | src/components/Game.tsx:199-216 | vy' = vy + G·dt·0.6 and y' = y + vy'·dt; the floor is hit exactly when y' + radius exceeds the height, and then y is put back onto the floor line h − radius; if the resulting y is below −100 (above the ceiling on screen) the player is set to y = −100 with vy = 0, otherwise y is kept and vy = vy'; rotation follows vy' |
| Physics.SinkingOntoFloorHits | src/components/Game.tsx:201-211 | a player one pixel into the floor band and not rising hits the floor on the next frame of positive length |
| Physics.Burst | src/components/Game.tsx:109-123 | a burst appends exactly PARTICLE_COUNT particles, at the given point, at full life, in the given colour, after the existing ones |
| Physics.DriftAll | src/components/Game.tsx:267-272 | every particle moves by its velocity times dt (the old vy for y), loses 0.02·dt life and gains 0.1·dt downward velocity, in place and in order; `Physics.DriftFades` and `RunnerProperties.PlayKeepsLiveParticles` carry its consequences |
| Physics.DriftFades | src/components/Game.tsx:267-272 | on a frame of positive length every particle loses life and keeps its colour and size |
| Seqs.Filter | src/components/Game.tsx:246 | cleanup keeps exactly the elements satisfying the predicate, as an order-preserving subsequence |
| Seqs.FilterCounts | src/components/Game.tsx:246 | cleanup keeps every copy of a kept value and no copy of a dropped one, so together with the order-preserving embedding the result is exactly the kept elements in order |
| Seqs.FilterKeepsPairwise | src/components/Game.tsx:246 | any ordering between all pairs of elements survives cleanup |
| Collision.ObstacleStepFacts | src/components/Game.tsx:224-243 | one iteration of the obstacle loop (`Collision.ObstacleStep`) appends the advanced obstacle, adds 1 to score and lifts highScore to max(score, highScore) exactly on a first pass, leaves tokens alone, records a crash exactly on a strike and then appends PARTICLE_COUNT particles after the existing ones |
| Collision.SweepObstacles | src/components/Game.tsx:224-243 | the obstacle pass moves every obstacle left by speed·dt; it sets `passed` only on an unpassed obstacle now left of the player; score rises by exactly the number of such flips; highScore becomes max(old highScore, new score) when some flip happened and is otherwise unchanged; tokens are untouched; a crash is recorded exactly when some moved obstacle is struck, with one particle burst per strike |
| Collision.StrikesCounted | src/components/Game.tsx:228-233 | the strike count is positive exactly when some moved obstacle overlaps the player horizontally with the player's vertical extent outside the gap |
| Collision.PassedIsSticky | src/components/Game.tsx:237-238 | a `passed` flag is never cleared, and it is newly set only when the player is right of the moved obstacle |
| Collision.SweepObstaclesAdvancesEach | src/components/Game.tsx:224-243 | the obstacle pass treats each obstacle independently of the others |
| Collision.TouchesIsDistanceTest | src/components/Game.tsx:251-255 | the squared test agrees with `dist < player.radius + token.radius` for the true distance |
| Collision.TokenStepFacts | src/components/Game.tsx:249-263 | one iteration of the collectible loop (`Collision.TokenStep`) appends the gathered token and, exactly on a pickup, adds 1 token and 5 points and appends PARTICLE_COUNT particles after the existing ones; highScore is untouched |
| Collision.SweepTokens | src/components/Game.tsx:249-263 | the token pass moves every token left by speed·dt; each pickup of an uncollected, touching token adds exactly 1 token and 5 points; highScore is never changed by pickups |
| Collision.SweepTokensGathersEach | src/components/Game.tsx:249-263 | the token pass treats each token independently of the others |
| Collision.PassesScore | src/components/Game.tsx:237-258 | across both passes: score + flips + 5·pickups; tokens + pickups; highScore follows the score only through flips |
| Lifecycle.Initial | src/components/Game.tsx:31-36 | the refs start with the player at (50, 300), at rest, radius 28, zero stats and empty lists, in the START phase that src/App.tsx:10 sets |
| Lifecycle.Reset | src/components/Game.tsx:125-140 | the player is at (0.2·w, h/2), at rest, unrotated, with the clamped radius; score and tokens are 0 and highScore is carried over; exactly 3 obstacles at w+S, w+2S and w+3S, all unpassed; no particles; at most 3 tokens; the invariant holds |
| Lifecycle.ResetForgetsRun | src/components/Game.tsx:125-140 | two worlds with the same highScore and phase reset to the same world |
| Lifecycle.FreshRunOn800By600 | src/components/Game.tsx:127-137 | on 800×600 the player starts at (160, 300) with radius 40, and the third obstacle is at least 2·spacing + 800 |
| Lifecycle.Jump | src/components/Game.tsx:143-157 | while PLAYING only vy changes, to −6; in START or GAME_OVER a reset run begins in PLAYING: player at (0.2·w, h/2), at rest, unrotated, with the clamped radius; zero score and tokens with highScore carried; no particles; three unpassed obstacles at w+S, w+2S, w+3S; at most 3 tokens; the invariant holding |
| Lifecycle.JumpReplacesVelocity | src/components/Game.tsx:146-147 | jumping twice equals jumping once |
| Lifecycle.Resize | src/components/Game.tsx:417-421 | a resize sets the clamped radius and changes nothing else |
| Lifecycle.Play | src/components/Game.tsx:199-273 | a PLAYING frame raises GAME_OVER exactly on a floor hit or an obstacle crash and sets the phase accordingly; afterwards every obstacle satisfies x + width > −200, every token is on screen (x > −100) and uncollected, and every particle has positive life; `RunnerProperties.PlayCleansObstacles`, `PlayCleansTokens`, `PlayKeepsLiveParticles` and `PlayScores` state the exact contents and scores |
| Lifecycle.Tick | src/components/Game.tsx:184-198 | the frame counter always advances; outside PLAYING nothing else changes and no game over is raised; the phase becomes GAME_OVER exactly when the frame raised it |
| RunnerProperties.PlayCleansObstacles | src/components/Game.tsx:224-246 | after a PLAYING frame the obstacles are exactly the advanced obstacles with x + width > −200, in order |
| RunnerProperties.PlayCleansTokens | src/components/Game.tsx:249-264 | after a PLAYING frame the tokens are exactly the moved tokens with x > −100 that are not collected, in order |
| RunnerProperties.PlayKeepsLiveParticles | src/components/Game.tsx:266-273 | after a PLAYING frame the particles are exactly the frame's particles after drifting, minus those whose life is no longer positive, in order |
| RunnerProperties.PlayScores | src/components/Game.tsx:236-258 | one PLAYING frame adds 1 point per first pass and 5 per pickup, adds pickups to tokens, and moves highScore only through passes |
| RunnerProperties.PlayEndsRunExactly | src/components/Game.tsx:205-233 | a PLAYING frame raises GAME_OVER exactly on a floor hit or a strike on some moved obstacle |
| RunnerProperties.SinkingPlayerEndsRun | src/components/Game.tsx:201-211 | a player at y = h − radius + 1 with vy ≥ 0 ends the run on the next frame |
| RunnerProperties.TickNeverLowersStats | src/components/Game.tsx:237-258 | no frame lowers score, highScore or tokens |
| RunnerProperties.AdvanceKeepsLayout | src/components/Game.tsx:224-225 | scrolling all obstacles by the same distance keeps gap, width and spacing |
| RunnerProperties.FilterKeepsLayout | src/components/Game.tsx:246 | obstacle cleanup keeps gap, width and spacing |
| RunnerProperties.ReplenishKeepsLayout | src/components/Game.tsx:218-221 | the lookahead spawn keeps gap, width, spacing and token radius |
| RunnerProperties.TickKeepsCoherent | src/components/Game.tsx:184-273 | every frame keeps the world invariant: radius in [22, 40], constant gap and width, spacing order, token radius 18 |
| RunnerProperties.InitialIsCoherent | src/components/Game.tsx:31-36 | the initial world satisfies the invariant |
| RunnerProperties.JumpKeepsCoherent | src/components/Game.tsx:143-157 | the jump input keeps the invariant |
| RunnerProperties.RunKeepsCoherent | src/components/Game.tsx:143-273 | every world reachable by frames, jumps and resizes from a coherent world is coherent |
| RunnerProperties.RunKeepsHighScore | src/components/Game.tsx:131-240 | highScore never decreases over any sequence of frames, jumps and resizes, across game overs and restarts |
| UserApi.Lower | api/user.ts:6 | lower-casing keeps the length, maps each letter to its lower case and leaves no upper-case letter |
| UserApi.LowerIsIdempotent | api/user.ts:6 | lower-casing twice equals lower-casing once |
| UserApi.WalletOf | api/user.ts:6 | the wallet is the query wallet when it is truthy, otherwise the body's wallet, lower-cased; absent when neither is given |
| UserApi.KeyIsInjective | api/user.ts:9 | distinct wallets have distinct `user:` keys |
| UserApi.Lookup | api/user.ts:9-14 | the stored record when present, otherwise `{wallet, username: null, score: 0, tokens: 0}` |
| UserApi.Merge | api/user.ts:16-23 | username is replaced only by a truthy one; with a numeric score the score becomes the larger of the two and tokens add the reported tokens (or 0); without one, score and tokens are unchanged |
| UserApi.Handle | api/user.ts:5-29 | a missing wallet or another method gives 400 with no write; GET returns the lookup with no write; POST without a body throws; POST writes the merged record under `user:` + wallet and returns it |
| UserApi.HandleTouchesOneKey | api/user.ts:25 | only POST writes, and only the requested wallet's key changes |
| UserApi.GetAfterPost | api/user.ts:8-26 | a GET after a POST for the same wallet (in any letter case) returns what the POST returned |
| UserApi.HandleNeverLowersScore | api/user.ts:20-21 | no request lowers a stored score |
| UserApi.NamePostIsIdempotent | api/user.ts:17 | repeating a POST without a score changes nothing more |
| UserApi.ReportsAccumulateTokens | api/user.ts:22 | two score reports add both token counts to the stored total |
| UserApi.WrittenKeysAreUserKeys | api/user.ts:25 | every key written has the `user:` prefix |
| Leaderboard.Collect | api/leaderboard.ts:10-13 | one record per listed key that resolves: each record appears exactly as many times as listed keys hold it; every collected record is the value of a listed key, and every resolvable listed key's value is collected |
| Leaderboard.Insert | api/leaderboard.ts:15 | insertion adds exactly the one record |
| Leaderboard.InsertKeepsDescending | api/leaderboard.ts:15 | inserting into a descending list keeps it descending |
| Leaderboard.SortByRank | api/leaderboard.ts:15 | the sort yields a descending permutation of its input |
| Leaderboard.Top | api/leaderboard.ts:15-16 | the board is descending, a prefix of the sorted records, of length min(50, n), drawn from the records without duplication, and every record left out ranks at most every record kept |
| Leaderboard.PrefixOutranksRest | api/leaderboard.ts:15-16 | in a descending list, whatever is cut off ranks at most everything kept |
| Leaderboard.Handle | api/leaderboard.ts:5-19 | a store failure gives 500 "db error"; otherwise 200 with a descending list of min(50, resolvable keys) listed records, no duplicates, and no left-out record outranking a returned one |
| Leaderboard.SmallBoardShowsEveryone | api/leaderboard.ts:16 | with at most fifty records, the board holds all of them |

## Left out

- Rendering (src/components/Game.tsx:276-404), the background stars and the floor grid: these only draw pixels and never feed game logic.
- Image loading, audio calls, DOM input listeners, `requestAnimationFrame` and the timestamp arithmetic of line 192: the frame length `dt` is an input to `Tick`.
- Particle trigonometry: the random velocity and size of each particle come from the `spray` oracle. Only the count, position, life and colour of a burst are specified.
- Floating-point rounding: numbers are exact reals. π/4 and 2π are written as the doubles `Math.PI / 4` and `Math.PI * 2` evaluate to.
- React state semantics: the stale `gameState` closure and batched `setGameState` are replaced by the returned `gameOverRaised` flag and a phase change at the end of the frame.
- The `onScoreUpdate` notifications sent on each pass, pickup and reset are not modelled. The model exposes the resulting stats instead.
- `jump` in Game.tsx does nothing when the canvas element is missing. The model always has a canvas.
- src/App.tsx, src/components/UIOverlay.tsx, src/services/wallet.ts and src/services/api.ts are UI, local-storage, wallet and `fetch` glue, not part of this model.
- The real KV client: `kv.get`/`kv.set` become map lookup and update. `kv.keys("user:*")` becomes an input sequence of keys, so its order and the pattern match belong to the store. A store failure becomes the `fault` input of `Leaderboard.Handle`.
- UserApi.Lower: lower-cases only the ASCII letters A–Z, while `toLowerCase` also maps other Unicode upper-case letters.
- UserApi.Handle: body fields are typed. A non-string username, a non-numeric `tokens` (which JavaScript would concatenate) and NaN scores are outside the model. A query `wallet` given as an array is too.
- Leaderboard.Rank: stored records always carry an integer score here, so the `score || 0` fallback of api/leaderboard.ts:15 for a missing score never applies.
- Leaderboard.SortByRank: it is stable, like JavaScript's sort. Stability itself is not stated as a property.

## Notes

- Cleanup keeps only strictly greater values. An obstacle with x + width = −200 is removed (src/components/Game.tsx:246), and so is a token with x = −100 (src/components/Game.tsx:264).
- A token pickup adds 5 to the score but does not update the high score. Only obstacle passes do. The model keeps this, so the high score can trail the score.
