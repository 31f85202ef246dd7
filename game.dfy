// The Game object: its fields are updated in place, in the order `update`
// and `restartGame` do it.
module GameObject {
  import opened Geometry
  import opened Simulation
  import opened Properties

  class Game {
    var player: Player
    var platforms: seq<Rect>
    var enemies: seq<Enemy>
    var score: int
    var lives: int
    var gameOver: bool

    // The whole simulated state as a value.
    function State(): World
      reads this
    {
      World(player, platforms, enemies, score, lives, gameOver)
    }

    ghost predicate Valid()
      reads this
    {
      Inv(State())
    }

    // The fields the constructor sets before the game loop starts.
    constructor ()
      ensures State() == Initial()
      ensures Valid()
    {
      player := InitialPlayer();
      platforms := InitialPlatforms();
      enemies := [InitialEnemy()];
      score := 0;
      lives := StartLives;
      gameOver := false;
      InitialInv();
    }

    // One frame with the given keys held (ArrowLeft, ArrowRight, space).
    method Update(left: bool, right: bool, jump: bool)
      modifies this
      ensures State() == Step(old(State()), Keys(left, right, jump))
      ensures old(gameOver) ==> unchanged(this)
      ensures score == old(score) && platforms == old(platforms)
      ensures !old(gameOver) && 0.0 <= old(player.width) <= CanvasWidth ==>
                0.0 <= player.x <= CanvasWidth - player.width
      ensures old(Valid()) ==> Valid()
    {
      ghost var w0 := State();
      ghost var keys := Keys(left, right, jump);
      if gameOver {
        return;
      }
      MovePlayer(left, right, jump);
      LandOnPlatforms();
      MoveEnemies();
      KeepInBounds();
      StepKeepsScore(w0, keys);
      if 0.0 <= w0.player.width <= CanvasWidth {
        StepClamp(w0, keys);
      }
      if Inv(w0) {
        StepInv(w0, keys);
      }
    }

    // Horizontal speed from the keys, the jump, gravity and the position.
    method MovePlayer(left: bool, right: bool, jump: bool)
      modifies this
      ensures State() == old(State()).(player := Move(old(player), Keys(left, right, jump)))
    {
      if left {
        player := player.(velocityX := -MoveSpeed);
      } else if right {
        player := player.(velocityX := MoveSpeed);
      } else {
        player := player.(velocityX := 0.0);
      }

      if jump && !player.isJumping {
        player := player.(velocityY := JumpVelocity, isJumping := true);
      }

      player := player.(velocityY := player.velocityY + Gravity);
      player := player.(x := player.x + player.velocityX);
      player := player.(y := player.y + player.velocityY);
    }

    // The platform pass: a falling player overlapping a platform is stood on it.
    method LandOnPlatforms()
      modifies this
      ensures State() == old(State()).(player := Land(old(player), platforms))
    {
      var i := 0;
      while i < |platforms|
        invariant 0 <= i <= |platforms|
        invariant State() == old(State()).(player := player)
        invariant Land(player, platforms[i..]) == Land(old(player), platforms)
      {
        if Overlaps(player.Box(), platforms[i]) {
          if player.velocityY > 0.0 {
            player := player.(y := platforms[i].y - player.height, velocityY := 0.0, isJumping := false);
          }
        }
        assert platforms[i..][1..] == platforms[i + 1..];
        i := i + 1;
      }
      assert platforms[i..] == [];
    }

    // The enemy pass: each enemy moves and turns, then a contact costs a life.
    method MoveEnemies()
      modifies this
      ensures State() == EnemiesFrom(old(State()), 0)
    {
      var j := 0;
      while j < |enemies|
        invariant 0 <= j <= |enemies| == |old(enemies)|
        invariant EnemiesFrom(State(), j) == EnemiesFrom(old(State()), 0)
      {
        var enemy := enemies[j];
        enemy := enemy.(x := enemy.x + enemy.direction * EnemySpeed);
        if enemy.x <= PatrolLeft || enemy.x >= PatrolRight {
          enemy := enemy.(direction := enemy.direction * -1.0);
        }
        enemies := enemies[j := enemy];
        if Overlaps(player.Box(), enemy.Box()) {
          lives := lives - 1;
          player := player.(x := SpawnX, y := SpawnY);
          if lives <= 0 {
            gameOver := true;
          }
        }
        j := j + 1;
      }
    }

    // Keep the player in bounds.
    method KeepInBounds()
      modifies this
      ensures State() == old(State()).(player := Clamp(old(player)))
    {
      if player.x < 0.0 {
        player := player.(x := 0.0);
      }
      if player.x > CanvasWidth - player.width {
        player := player.(x := CanvasWidth - player.width);
      }
    }

    // The restart button: score, lives, spawn position and the flag are put
    // back; velocities, the jumping flag, platforms and enemies are kept.
    method RestartGame()
      modifies this
      ensures State() == Restart(old(State()))
      ensures score == 0 && lives == StartLives && !gameOver
      ensures player == old(player).(x := SpawnX, y := SpawnY)
      ensures platforms == old(platforms) && enemies == old(enemies)
      ensures old(Valid()) ==> Valid()
    {
      if Valid() {
        RestartInv(State());
      }
      score := 0;
      lives := StartLives;
      player := player.(x := SpawnX);
      player := player.(y := SpawnY);
      gameOver := false;
    }
  }
}
