// What the simulation step and the restart promise: landing, enemy patrol,
// enemy contact, the game-over latch, the horizontal clamp, and the
// invariant every reachable game state keeps.
module Properties {
  import opened Geometry
  import opened Simulation

  // ---------------------------------------------------------------- landing

  // A player that is not falling, or that overlaps no platform, is left as is.
  lemma {:induction false} LandNoSnap(p: Player, platforms: seq<Rect>)
    requires p.velocityY <= 0.0 || forall j :: 0 <= j < |platforms| ==> !Overlaps(p.Box(), platforms[j])
    ensures Land(p, platforms) == p
    decreases |platforms|
  {
    if platforms != [] {
      assert LandOn(p, platforms[0]) == p;
      LandNoSnap(p, platforms[1..]);
    }
  }

  // A falling player is stood on the FIRST platform it overlaps, and no later
  // platform moves it again.
  lemma {:induction false} LandFirstWins(p: Player, platforms: seq<Rect>, i: nat)
    requires p.velocityY > 0.0
    requires i < |platforms| && Overlaps(p.Box(), platforms[i])
    requires forall j :: 0 <= j < i ==> !Overlaps(p.Box(), platforms[j])
    ensures Land(p, platforms) == p.(y := platforms[i].y - p.height, velocityY := 0.0, isJumping := false)
    decreases i
  {
    if i == 0 {
      LandNoSnap(LandOn(p, platforms[0]), platforms[1..]);
    } else {
      assert LandOn(p, platforms[0]) == p;
      LandFirstWins(p, platforms[1..], i - 1);
    }
  }

  // ----------------------------------------------------------- enemy patrol

  predicate IsEven(x: real)
  {
    x == x.Floor as real && x.Floor % 2 == 0
  }

  // An enemy on its patrol: between the boundaries, at an even coordinate,
  // and facing away from the boundary it last turned at.
  predicate OnPatrol(e: Enemy)
  {
    PatrolLeft <= e.x <= PatrolRight && IsEven(e.x) &&
    ((e.direction == 1.0 && e.x < PatrolRight) || (e.direction == -1.0 && e.x > PatrolLeft))
  }

  // One move keeps the enemy on its patrol; it steps 2 in its direction and
  // turns exactly when it arrives at a boundary.
  lemma MoveEnemyOnPatrol(e: Enemy)
    requires OnPatrol(e)
    ensures var m := MoveEnemy(e);
      && OnPatrol(m)
      && m.x == e.x + 2.0 * e.direction
      && (m.direction == -e.direction <==> m.x == PatrolLeft || m.x == PatrolRight)
      && m == e.(x := m.x, direction := m.direction)
  {
  }

  // The enemy after n frames.
  function Patrol(e: Enemy, n: nat): Enemy
  {
    if n == 0 then e else MoveEnemy(Patrol(e, n - 1))
  }

  // From the start the enemy walks right two units a frame ...
  lemma {:induction false} PatrolOutward(n: nat)
    requires n < 100
    ensures Patrol(InitialEnemy(), n) == InitialEnemy().(x := PatrolLeft + 2.0 * n as real)
  {
    if n > 0 {
      PatrolOutward(n - 1);
    }
  }

  // ... turns for the first time when it arrives at the right boundary ...
  lemma PatrolTurnsAtRight()
    ensures Patrol(InitialEnemy(), 100) == InitialEnemy().(x := PatrolRight, direction := -1.0)
  {
    PatrolOutward(99);
  }

  // ... walks back left ...
  lemma {:induction false} PatrolBack(n: nat)
    requires 100 <= n < 200
    ensures Patrol(InitialEnemy(), n) == InitialEnemy().(x := PatrolRight - 2.0 * (n - 100) as real, direction := -1.0)
  {
    if n == 100 {
      PatrolTurnsAtRight();
    } else {
      PatrolBack(n - 1);
    }
  }

  // ... and is back where it started after 200 frames.
  lemma PatrolPeriod()
    ensures Patrol(InitialEnemy(), 200) == InitialEnemy()
  {
    PatrolBack(199);
  }

  // ---------------------------------------------------------- enemy contact

  // The enemy pass moves every remaining enemy and touches nothing but the
  // enemies, the player's position, the lives and the flag.
  lemma {:induction false} EnemiesFromFrame(w: World, i: nat)
    requires i <= |w.enemies|
    ensures var r := EnemiesFrom(w, i);
      && r.platforms == w.platforms && r.score == w.score
      && |r.enemies| == |w.enemies|
      && (forall j :: 0 <= j < i ==> r.enemies[j] == w.enemies[j])
      && (forall j :: i <= j < |w.enemies| ==> r.enemies[j] == MoveEnemy(w.enemies[j]))
      && r.player == w.player.(x := r.player.x, y := r.player.y)
    decreases |w.enemies| - i
  {
    if i < |w.enemies| {
      EnemiesFromFrame(MeetEnemy(w, i), i + 1);
    }
  }

  // Each contact costs one life and respawns the player; the flag is latched
  // exactly when some contact left no life.
  lemma {:induction false} EnemiesFromContacts(w: World, i: nat)
    requires i <= |w.enemies|
    ensures var r := EnemiesFrom(w, i);
      && w.lives - (|w.enemies| - i) <= r.lives <= w.lives
      && (r.gameOver <==> w.gameOver || (r.lives < w.lives && r.lives <= 0))
      && (r.lives == w.lives ==> r.player == w.player)
      && (r.lives < w.lives ==> r.player == w.player.(x := SpawnX, y := SpawnY))
    decreases |w.enemies| - i
  {
    if i < |w.enemies| {
      EnemiesFromContacts(MeetEnemy(w, i), i + 1);
    }
  }

  // ------------------------------------------------------------------- step

  // Once the game is over a step changes nothing at all.
  lemma StepLatched(w: World, keys: Keys)
    requires w.gameOver
    ensures Step(w, keys) == w
  {
  }

  // A step never changes the score or the platforms, and moves every enemy.
  lemma StepKeepsScore(w: World, keys: Keys)
    ensures var r := Step(w, keys);
      && r.score == w.score && r.platforms == w.platforms
      && |r.enemies| == |w.enemies|
      && (!w.gameOver ==> forall j :: 0 <= j < |w.enemies| ==> r.enemies[j] == MoveEnemy(w.enemies[j]))
  {
    if !w.gameOver {
      EnemiesFromFrame(w.(player := Land(Move(w.player, keys), w.platforms)), 0);
    }
  }

  // Left wins over right; neither key stops the player.
  lemma StepHorizontalVelocity(w: World, keys: Keys)
    requires !w.gameOver
    ensures Step(w, keys).player.velocityX ==
            if keys.left then -MoveSpeed else if keys.right then MoveSpeed else 0.0
  {
    EnemiesFromFrame(w.(player := Land(Move(w.player, keys), w.platforms)), 0);
  }

  // After a step the player is on the canvas horizontally.
  lemma StepClamp(w: World, keys: Keys)
    requires !w.gameOver
    requires 0.0 <= w.player.width <= CanvasWidth
    ensures var r := Step(w, keys).player;
      r.width == w.player.width && 0.0 <= r.x <= CanvasWidth - w.player.width
  {
    EnemiesFromFrame(w.(player := Land(Move(w.player, keys), w.platforms)), 0);
  }

  // Without a landing, the jump (space held while not jumping) sets the
  // upward speed and gravity is added on top of it in the same step.
  lemma StepAirborne(w: World, keys: Keys)
    requires !w.gameOver
    requires var m := Move(w.player, keys);
      m.velocityY <= 0.0 || forall j :: 0 <= j < |w.platforms| ==> !Overlaps(m.Box(), w.platforms[j])
    ensures var r := Step(w, keys).player;
      var jumps := keys.jump && !w.player.isJumping;
      && r.velocityY == (if jumps then JumpVelocity else w.player.velocityY) + Gravity
      && r.isJumping == (w.player.isJumping || keys.jump)
  {
    var m := Move(w.player, keys);
    LandNoSnap(m, w.platforms);
    EnemiesFromFrame(w.(player := m), 0);
  }

  // A falling player that overlaps platform i, and no earlier one, after
  // moving stops on top of platform i (unless an enemy respawned it).
  lemma StepLands(w: World, keys: Keys, i: nat)
    requires !w.gameOver
    requires var m := Move(w.player, keys);
      && m.velocityY > 0.0
      && i < |w.platforms| && Overlaps(m.Box(), w.platforms[i])
      && forall j :: 0 <= j < i ==> !Overlaps(m.Box(), w.platforms[j])
    ensures var r := Step(w, keys);
      && r.player.velocityY == 0.0 && !r.player.isJumping
      && (r.lives == w.lives ==> r.player.y == w.platforms[i].y - w.player.height)
  {
    var m := Move(w.player, keys);
    LandFirstWins(m, w.platforms, i);
    var landed := w.(player := Land(m, w.platforms));
    EnemiesFromFrame(landed, 0);
    EnemiesFromContacts(landed, 0);
  }

  // With one enemy: the enemy moves first, the contact test uses the landed
  // but not yet clamped player, and a contact costs exactly one life,
  // respawns the player, and ends the game when it took the last life.
  lemma StepEnemyContact(w: World, keys: Keys)
    requires !w.gameOver && |w.enemies| == 1
    ensures var landed := Land(Move(w.player, keys), w.platforms);
      var e := MoveEnemy(w.enemies[0]);
      var hit := Overlaps(landed.Box(), e.Box());
      var r := Step(w, keys);
      && r.enemies == [e]
      && r.lives == (if hit then w.lives - 1 else w.lives)
      && r.gameOver == (hit && w.lives <= 1)
      && (hit ==> r.player == Clamp(landed.(x := SpawnX, y := SpawnY)))
      && (!hit ==> r.player == Clamp(landed))
  {
    var w1 := w.(player := Land(Move(w.player, keys), w.platforms));
    assert EnemiesFrom(w1, 0) == EnemiesFrom(MeetEnemy(w1, 0), 1) == MeetEnemy(w1, 0);
  }

  // ------------------------------------------------------------ invariant

  // What holds in every state the game can reach: the fixed layout and
  // sizes, one enemy on patrol, lives in [0, 3], the flag set exactly when
  // no life is left, and a score that is never raised.
  predicate Inv(w: World)
  {
    && w.player.width == PlayerWidth && w.player.height == PlayerHeight
    && 0.0 <= w.player.x <= CanvasWidth - PlayerWidth
    && w.platforms == InitialPlatforms()
    && |w.enemies| == 1 && OnPatrol(w.enemies[0])
    && 0 <= w.lives <= StartLives
    && (w.gameOver <==> w.lives == 0)
    && w.score == 0
  }

  lemma InitialInv()
    ensures Inv(Initial())
  {
  }

  lemma {:induction false} StepInv(w: World, keys: Keys)
    requires Inv(w)
    ensures Inv(Step(w, keys))
  {
    if !w.gameOver {
      var w1 := w.(player := Land(Move(w.player, keys), w.platforms));
      EnemiesFromFrame(w1, 0);
      EnemiesFromContacts(w1, 0);
      MoveEnemyOnPatrol(w.enemies[0]);
      StepClamp(w, keys);
    }
  }

  // Restart puts back score, lives, the spawn position and the flag, and
  // keeps the velocities, the jumping flag, the platforms and the enemies.
  lemma RestartResets(w: World)
    ensures var r := Restart(w);
      && r.score == 0 && r.lives == StartLives && !r.gameOver
      && r.player.x == SpawnX && r.player.y == SpawnY
      && r.player.velocityX == w.player.velocityX && r.player.velocityY == w.player.velocityY
      && r.player.isJumping == w.player.isJumping
      && r.platforms == w.platforms && r.enemies == w.enemies
  {
  }

  lemma RestartInv(w: World)
    requires Inv(w)
    ensures Inv(Restart(w))
  {
  }

  // What the host can do to a game: run one frame with some keys held, or
  // press the restart button.
  datatype Event = Frame(keys: Keys) | RestartPressed

  function Apply(w: World, ev: Event): World
  {
    match ev
    case Frame(keys) => Step(w, keys)
    case RestartPressed => Restart(w)
  }

  function Run(w: World, events: seq<Event>): World
    decreases |events|
  {
    if events == [] then w else Run(Apply(w, events[0]), events[1..])
  }

  lemma {:induction false} RunInv(w: World, events: seq<Event>)
    requires Inv(w)
    ensures Inv(Run(w, events))
    decreases |events|
  {
    if events != [] {
      match events[0] {
        case Frame(keys) => StepInv(w, keys);
        case RestartPressed => RestartInv(w);
      }
      RunInv(Apply(w, events[0]), events[1..]);
    }
  }

  // In every reachable state lives stay in [0, 3], the score is 0, the
  // enemy stays between the patrol boundaries and the player on the canvas.
  lemma Reachable(events: seq<Event>)
    ensures var r := Run(Initial(), events);
      && 0 <= r.lives <= StartLives && r.score == 0
      && (r.gameOver <==> r.lives == 0)
      && |r.enemies| == 1 && PatrolLeft <= r.enemies[0].x <= PatrolRight
      && 0.0 <= r.player.x <= CanvasWidth - PlayerWidth
  {
    InitialInv();
    RunInv(Initial(), events);
  }
}
