# Pixel Plumber's Paradise: the game simulation, in Dafny

This project models the per-frame simulation of a small browser platform
game (the `Game` class of `frontend/index.js`). One frame (`update`) reads
three held keys (ArrowLeft, ArrowRight, space) and then:
- sets the player's horizontal speed;
- starts a jump;
- applies gravity and moves the player;
- lands the player on the first platform it falls into;
- moves the one patrolling enemy and, on contact, takes a life, respawns the
  player and latches game over;
- clamps the player to the canvas.

`restartGame` puts back the score, the lives, the spawn position and the
game-over flag.

Layout:
- `geometry.dfy` (module `Geometry`): rectangles and the overlap test
  (`checkCollision`).
- `simulation.dfy` (module `Simulation`): the state as a value (`World`) and
  each phase of a frame as a function. These are `Move`, `Land`, `MoveEnemy`,
  `MeetEnemy`, `EnemiesFrom`, `Clamp`, `Step` and `Restart`, plus the initial
  state the constructor builds.
- `properties.dfy` (module `Properties`): lemmas about those functions, and
  the invariant `Inv` that every reachable state keeps.
- `game.dfy` (module `GameObject`): the `Game` class. Its fields are updated
  in place by `Update` and `RestartGame`, whose loops run over the platforms
  and the enemies. Each method is proved equal to `Step` or `Restart`.

Numbers are Dafny `real`s with the game code's own constants (gravity 0.8, jump
speed −15, walking speed 5, canvas width 800, enemy speed 2, patrol
boundaries 300 and 500). `lives` and `score` are integers.

Behaviour of `update` the model keeps:
- A player lands only when its vertical speed is strictly positive, not when
  it is zero or more.
- The first overlapping platform in array order wins. Landing zeroes the
  vertical speed, so no later platform in the same frame can move the player
  again.
- An enemy contact is tested against the landed but not yet clamped player.
- The score is never raised anywhere, so it stays 0 in every reachable state
  (`Properties.Reachable`).

## Model

| member | source | states |
|---|---|---|
| `Geometry.OverlapsSymmetric` | frontend/index.js:157-162 | the overlap test gives the same answer with its arguments swapped |
| `Geometry.TouchingDoNotOverlap` | frontend/index.js:157-162 | rectangles that only share an edge (on either axis, from either side) do not overlap |
| `Geometry.OverlapsIffCommonInterior` | frontend/index.js:157-162 | for rectangles of positive size, the four strict half-plane tests hold exactly when some point lies strictly inside both |
| `Simulation.Land` | frontend/index.js:99-108 | the platform pass either leaves the player as is, or (only for a falling player) changes only y, zeroes the vertical speed and clears the jumping flag |
| `Simulation.Clamp` | frontend/index.js:130-134 | only x changes; for a player no wider than the canvas the result is in [0, 800 − width]; a position already in range is kept; x < 0 becomes 0 and x > 800 − width becomes 800 − width |
| `Properties.LandNoSnap` | frontend/index.js:99-108 | a player that is not falling (speed ≤ 0), or overlaps no platform, leaves the platform pass unchanged |
| `Properties.LandFirstWins` | frontend/index.js:99-108 | a falling player is stood on the first platform it overlaps (y = platform.y − height, speed 0, not jumping) and no later platform moves it |
| `Properties.MoveEnemyOnPatrol` | frontend/index.js:111-115 | an enemy on patrol stays on patrol (in [300, 500], even x, facing away from the last turn); it moves 2 in its direction and turns exactly when it arrives at 300 or 500 |
| `Properties.PatrolOutward` | frontend/index.js:111-115 | from the initial enemy (x = 300, direction 1), after n < 100 frames x = 300 + 2n and it still moves right |
| `Properties.PatrolTurnsAtRight` | frontend/index.js:111-115 | the first turn happens at frame 100, at x = 500 |
| `Properties.PatrolBack` | frontend/index.js:111-115 | for frames 100 to 199 the enemy moves left, at x = 500 − 2(n − 100) |
| `Properties.PatrolPeriod` | frontend/index.js:111-115 | after 200 frames the enemy is back in its initial state |
| `Properties.EnemiesFromFrame` | frontend/index.js:110-128 | the enemy pass moves every remaining enemy, keeps the earlier ones, and changes neither platforms, score, nor any player field except its position |
| `Properties.EnemiesFromContacts` | frontend/index.js:117-127 | lives fall by at most the number of enemies passed; game over is set exactly when some contact left lives ≤ 0; any contact leaves the player at (50, 450) and no contact leaves the player unchanged |
| `Properties.StepLatched` | frontend/index.js:75 | once game over is set a frame changes nothing at all |
| `Properties.StepKeepsScore` | frontend/index.js:74-135 | a frame never changes the score or the platforms, and (when playing) moves every enemy one patrol step |
| `Properties.StepHorizontalVelocity` | frontend/index.js:78-84 | after a frame the horizontal speed is −5 with left held, else 5 with right held, else 0 (left wins) |
| `Properties.StepClamp` | frontend/index.js:130-134 | after a frame that ran, 0 ≤ x ≤ 800 − width and the width is unchanged |
| `Properties.StepAirborne` | frontend/index.js:86-97 | without a landing, the vertical speed is (−15 if space was held while not jumping, else the old speed) + 0.8, and the player is jumping iff it was or space was held |
| `Properties.StepLands` | frontend/index.js:99-108 | a falling player whose moved box overlaps platform i and no earlier one ends the frame with speed 0, not jumping, and on top of platform i unless an enemy respawned it |
| `Properties.StepEnemyContact` | frontend/index.js:110-128 | with one enemy: the enemy moves one patrol step; it costs exactly one life iff it overlaps the landed, unclamped player; game over iff that took the last life; on contact the player is respawned at (50, 450) before the clamp |
| `Properties.InitialInv` | frontend/index.js:7-38 | the constructor's state satisfies the game invariant |
| `Properties.StepInv` | frontend/index.js:74-135 | a frame keeps the invariant: sizes and layout, one enemy on patrol, lives in [0, 3], game over iff lives = 0, score 0, player on the canvas |
| `Properties.RestartResets` | frontend/index.js:180-189 | restart sets score 0, lives 3, position (50, 450) and clears game over; velocities, jumping flag, platforms and enemies are kept |
| `Properties.RestartInv` | frontend/index.js:180-189 | restart keeps the invariant |
| `Properties.RunInv` | frontend/index.js:191-195 | any sequence of frames and restarts keeps the invariant |
| `Properties.Reachable` | frontend/index.js:10-38 | in every state reachable from the initial one, lives are in [0, 3], game over iff lives = 0, score is 0, the enemy is within [300, 500] and the player within [0, 768] |
| `GameObject.Game.constructor` | frontend/index.js:7-38 | the new game holds the initial player, platforms, enemy, score 0, lives 3 and no game over, and satisfies the invariant |
| `GameObject.Game.Update` | frontend/index.js:74-135 | the fields after the call are `Step` of the fields before; game over on entry leaves the object unchanged; score and platforms never change; the player ends on the canvas; the invariant is kept |
| `GameObject.Game.MovePlayer` | frontend/index.js:77-97 | only the player changes, to `Move` of the old player and keys |
| `GameObject.Game.LandOnPlatforms` | frontend/index.js:99-108 | the loop over the platforms leaves the player as `Land` of the old player and changes nothing else |
| `GameObject.Game.MoveEnemies` | frontend/index.js:110-128 | the loop over the enemies leaves the state as `EnemiesFrom` of the old state |
| `GameObject.Game.KeepInBounds` | frontend/index.js:130-134 | only the player's x changes, to `Clamp` of the old player |
| `GameObject.Game.RestartGame` | frontend/index.js:180-189 | the fields after the call are `Restart` of the fields before; velocities, jumping flag, platforms and enemies are unchanged; the invariant is kept |

## Left out

- `draw`: canvas drawing only, no state change.
- `initializeUI`, `feather.replace()`, and the `textContent` and `classList`
  writes in `update` and `restartGame`: these are page presentation with no
  game state.
- `handleKeyDown` / `handleKeyUp` and the event wiring: the held keys are
  parameters of `Update` (and a `Keys` value in `Step`), not a key map.
- `gameLoop` / `requestAnimationFrame`: the host calls it forever. The model
  exposes one frame. `Properties.Run` stands for any finite sequence of
  frames and restart clicks.
- `submitScore`: an asynchronous network call to the score service. Its
  errors are logged and swallowed, so it is foreign I/O and not modelled.
- `src/declarations/backend/backend.did.d.ts` and `backend.did.js`: these are
  generated interface declarations with no logic.
- IEEE-754 double rounding: coordinates and speeds are exact reals. No stated
  property depends on rounding.
- The canvas height is kept as a constant, but nothing in a frame reads it.
- Player, platform and enemy records are values held in the `Game` object's
  fields rather than separate objects. The game code never shares them between
  owners, so no aliasing is lost.
- The `update` body is split into four helper methods, one per phase:
  movement, platforms, enemies and bounds. They run in `update`'s order on
  the same fields.
