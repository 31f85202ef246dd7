// The per-frame simulation of the game (Game.update and Game.restartGame)
// stated as functions over a value of the whole game state. The class in
// game.dfy runs the same steps imperatively and is proved equal to these.
module Simulation {
  import opened Geometry

  const CanvasWidth: real := 800.0
  const CanvasHeight: real := 600.0
  const PlayerWidth: real := 32.0
  const PlayerHeight: real := 48.0
  const SpawnX: real := 50.0
  const SpawnY: real := 450.0
  const MoveSpeed: real := 5.0
  const JumpVelocity: real := -15.0
  const Gravity: real := 0.8
  const EnemySpeed: real := 2.0
  const PatrolLeft: real := 300.0
  const PatrolRight: real := 500.0
  const StartLives: int := 3

  datatype Player = Player(x: real, y: real, width: real, height: real,
                           velocityX: real, velocityY: real, isJumping: bool)
  {
    function Box(): Rect { Rect(x, y, width, height) }
  }

  // direction is +1 (moving right) or -1 (moving left).
  datatype Enemy = Enemy(x: real, y: real, width: real, height: real, direction: real)
  {
    function Box(): Rect { Rect(x, y, width, height) }
  }

  // The held keys the step reads: ArrowLeft, ArrowRight and space.
  datatype Keys = Keys(left: bool, right: bool, jump: bool)

  datatype World = World(player: Player, platforms: seq<Rect>, enemies: seq<Enemy>,
                         score: int, lives: int, gameOver: bool)

  function InitialPlayer(): Player
  {
    Player(SpawnX, SpawnY, PlayerWidth, PlayerHeight, 0.0, 0.0, false)
  }

  function InitialPlatforms(): seq<Rect>
  {
    [Rect(0.0, 500.0, 800.0, 100.0),
     Rect(300.0, 400.0, 200.0, 20.0),
     Rect(100.0, 300.0, 200.0, 20.0),
     Rect(500.0, 200.0, 200.0, 20.0)]
  }

  function InitialEnemy(): Enemy
  {
    Enemy(300.0, 370.0, 32.0, 32.0, 1.0)
  }

  // The state the constructor builds.
  function Initial(): World
  {
    World(InitialPlayer(), InitialPlatforms(), [InitialEnemy()], 0, StartLives, false)
  }

  // Horizontal speed from the keys (left checked first), the jump, gravity
  // and the position update.
  function Move(p: Player, keys: Keys): Player
  {
    var vx := if keys.left then -MoveSpeed else if keys.right then MoveSpeed else 0.0;
    var p1 := p.(velocityX := vx);
    var p2 := if keys.jump && !p1.isJumping then p1.(velocityY := JumpVelocity, isJumping := true) else p1;
    var p3 := p2.(velocityY := p2.velocityY + Gravity);
    p3.(x := p3.x + p3.velocityX, y := p3.y + p3.velocityY)
  }

  // One platform of the landing pass: a falling player that overlaps the
  // platform is put on top of it.
  function LandOn(p: Player, platform: Rect): Player
  {
    if Overlaps(p.Box(), platform) && p.velocityY > 0.0 then
      p.(y := platform.y - p.height, velocityY := 0.0, isJumping := false)
    else
      p
  }

  // The landing pass over the platforms, in array order: the player is
  // either left as is or, when falling, stood on some platform.
  function Land(p: Player, platforms: seq<Rect>): (r: Player)
    ensures r == p || (p.velocityY > 0.0 && r == p.(y := r.y, velocityY := 0.0, isJumping := false))
    decreases |platforms|
  {
    if platforms == [] then p else Land(LandOn(p, platforms[0]), platforms[1..])
  }

  // The enemy advances by its speed and turns round at or beyond a patrol
  // boundary.
  function MoveEnemy(e: Enemy): Enemy
  {
    var moved := e.(x := e.x + e.direction * EnemySpeed);
    if moved.x <= PatrolLeft || moved.x >= PatrolRight then moved.(direction := moved.direction * -1.0)
    else moved
  }

  // One enemy of the enemy pass: move it, then on contact take a life,
  // respawn the player and latch game over when no life is left.
  function MeetEnemy(w: World, i: nat): World
    requires i < |w.enemies|
  {
    var e := MoveEnemy(w.enemies[i]);
    var w1 := w.(enemies := w.enemies[i := e]);
    if Overlaps(w1.player.Box(), e.Box()) then
      var lives := w1.lives - 1;
      w1.(lives := lives,
          player := w1.player.(x := SpawnX, y := SpawnY),
          gameOver := if lives <= 0 then true else w1.gameOver)
    else
      w1
  }

  // The enemy pass from enemy i to the last one.
  function EnemiesFrom(w: World, i: nat): World
    requires i <= |w.enemies|
    decreases |w.enemies| - i
  {
    if i == |w.enemies| then w else EnemiesFrom(MeetEnemy(w, i), i + 1)
  }

  // Keep the player on the canvas horizontally: only x changes, a position
  // already on the canvas is kept, and any other is moved to the nearer edge.
  function Clamp(p: Player): (r: Player)
    ensures r == p.(x := r.x)
    ensures 0.0 <= p.width <= CanvasWidth ==> 0.0 <= r.x <= CanvasWidth - p.width
    ensures 0.0 <= p.x <= CanvasWidth - p.width ==> r == p
    ensures 0.0 <= p.width <= CanvasWidth ==>
              (p.x < 0.0 ==> r.x == 0.0) &&
              (p.x > CanvasWidth - p.width ==> r.x == CanvasWidth - p.width)
  {
    var p1 := if p.x < 0.0 then p.(x := 0.0) else p;
    if p1.x > CanvasWidth - p1.width then p1.(x := CanvasWidth - p1.width) else p1
  }

  // Game.update: nothing happens once the game is over.
  function Step(w: World, keys: Keys): World
  {
    if w.gameOver then w
    else
      var landed := Land(Move(w.player, keys), w.platforms);
      var met := EnemiesFrom(w.(player := landed), 0);
      met.(player := Clamp(met.player))
  }

  // Game.restartGame: score, lives, spawn position and the flag only.
  function Restart(w: World): World
  {
    w.(score := 0, lives := StartLives,
       player := w.player.(x := SpawnX, y := SpawnY), gameOver := false)
  }
}
