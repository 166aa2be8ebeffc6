/** The game's global state as one value, and what each entry point does
    to it: the tick of the game loop (a tick of play, a tick of the win
    sequence, or nothing), the level start, a key press and a menu choice.
    These functions are the specification the imperative `Engine.Game`
    is proved against, and the lemmas here state what they guarantee. */
module Simulation {
  import opened Geometry
  import opened Levels
  import opened Tiles
  import opened Kinematics
  import opened Spawning
  import opened Bees
  import opened Eggs
  import opened Pickups

  /** The screens of the game. */
  datatype Mode = Home | LevelSelect | Playing | Lose | Menu | Tutorial | Win

  /** The keys the key handler reacts to; every other key does nothing. */
  datatype Key = Enter | Tab | ArrowUp | ArrowDown | Escape | Space | OtherKey

  /** The held movement inputs a tick reads: each is a key or the matching
      on-screen button. */
  datatype Input = Input(right: bool, left: bool, up: bool)

  /** Platform settings, image sizes and the level table: desktop runs at
      speed 6 with gravity 0.9, touch devices at speed 8 with gravity 1.2;
      the game's own table is `Levels.Catalogue()`. */
  datatype Config = Config(baseSpeed: real, gravity: real, beeWidth: real, beeHeight: real, sizes: PickupSizes,
                           levels: seq<Level>)

  /** Start position of the player in every level. */
  const START_X: real := 200.0
  const START_Y: real := 365.0
  const START_LIVES: int := 3
  /** A chocolate doubles the speed for this many seconds. */
  const BOOST_SECONDS: real := 7.0
  /** Ticks of the win sequence: swimming in place until 60, swimming
      away 4 units per tick from then on, back to level select after 120. */
  const SWIM_AWAY_TICK: int := 60
  const SWIM_END_TICK: int := 120
  const SWIM_SPEED: real := 4.0

  /** Every global the game's logic reads or writes. Times are in seconds
      except where a clock reading in milliseconds is passed in. */
  datatype State = State(
    mode: Mode, selectedLevel: int, loseOption: int, menuOption: int,
    tilemap: seq<string>, triggers: seq<Trigger>,
    playerX: real, playerY: real, speed: real, velocity: real, jumpsRemaining: int,
    boostActive: bool, chocoBoostEnd: real, facingRight: bool, jumpButton: bool,
    swimTimer: int, lives: int, startTime: real,
    bees: seq<Rect>, fired: set<int>, eggs: seq<Egg>,
    toasts: seq<Rect>, cookies: seq<Rect>, chocolates: seq<Rect>, waters: seq<Rect>,
    cameraX: real, toastCount: int, cookieCount: int, chocoCount: int)

  /** The globals when the page loads: the home screen, level 1 selected,
      no level loaded. */
  function Start(cfg: Config): State
  {
    State(Home, 1, 0, 0, [], [], START_X, START_Y, cfg.baseSpeed, 0.0, MAX_JUMPS,
          false, 0.0, true, false, 0, START_LIVES, 0.0,
          [], {}, [], [], [], [], [], 0.0, 0, 0, 0)
  }

  /** Width of the loaded level in tiles, read from its first row. */
  function Cols(s: State): nat
  {
    if |s.tilemap| > 0 then |s.tilemap[0]| else 0
  }

  // ===== level start =====

  /** `initGame(n)`: loads level n's grid and trigger table, puts the
      player back at the start with full lives and jumps and no boost, and
      empties every list before parsing the grid's water and pickups.
      The screen, the cursors, the facing and the jump-button latch are
      left as they are. */
  function Init(s: State, n: int, cfg: Config, now: real): State
    requires IsLevel(n) && |cfg.levels| == 5
  {
    var tilemap := cfg.levels[n - 1].tilemap;
    s.(triggers := cfg.levels[n - 1].triggers, fired := {}, tilemap := tilemap,
       playerX := START_X, playerY := START_Y, speed := cfg.baseSpeed, velocity := 0.0,
       jumpsRemaining := MAX_JUMPS, boostActive := false, chocoBoostEnd := 0.0,
       bees := [], cameraX := 0.0, startTime := now / 1000.0, lives := START_LIVES, eggs := [],
       waters := Scan(Water, tilemap), toasts := Scan(cfg.sizes.Toast(), tilemap),
       cookies := Scan(cfg.sizes.Cookie(), tilemap), chocolates := Scan(cfg.sizes.Chocolate(), tilemap),
       toastCount := 0, cookieCount := 0, chocoCount := 0)
  }

  // ===== a tick of play =====

  /** The boost ends once the clock (ms) is strictly past its end (s). */
  function ExpireBoost(s: State, cfg: Config, now: real): (r: State)
    ensures r == s.(speed := r.speed, boostActive := r.boostActive)
  {
    if now / 1000.0 > s.chocoBoostEnd then s.(speed := cfg.baseSpeed, boostActive := false) else s
  }

  /** What the movement part of a tick leaves behind: the new state, the
      player's box (whose x is the pushed-out x before the clamp at 0; the
      later collision tests use it) and the blocks of this tick. */
  datatype Moved = Moved(s: State, box: Rect, blocks: seq<Rect>)

  /** The jump (up or the touch button, with a jump left and not
      rising), the facing (kept when standing still) and gravity. */
  function Steer(s: State, cfg: Config, input: Input, now: real): (r: State)
    ensures r == s.(velocity := r.velocity, jumpsRemaining := r.jumpsRemaining,
                    jumpButton := r.jumpButton, facingRight := r.facingRight)
  {
    var dx := MoveX(input.right, input.left, s.speed);
    var js := Jump(JumpState(s.velocity, s.jumpsRemaining, s.jumpButton), input.up, s.boostActive, now);
    s.(velocity := js.velocity + cfg.gravity, jumpsRemaining := js.jumpsRemaining, jumpButton := js.jumpButton,
       facingRight := if dx > 0.0 then true else if dx < 0.0 then false else s.facingRight)
  }

  /** Input, jump, gravity, the two push-out passes, the clamp at the
      world's left edge and the fall check. */
  function MovePlayer(s: State, cfg: Config, input: Input, now: real): (m: Moved)
    ensures m.s == s.(playerX := m.s.playerX, playerY := m.s.playerY, velocity := m.s.velocity,
                      jumpsRemaining := m.s.jumpsRemaining, jumpButton := m.s.jumpButton,
                      facingRight := m.s.facingRight, mode := m.s.mode)
  {
    var dx := MoveX(input.right, input.left, s.speed);
    var t := Steer(s, cfg, input, now);
    var blocks := Scan(Solid, s.tilemap);
    var boxX := ResolveX(s.playerX + dx, s.playerY, dx, blocks);
    var fall := ResolveY(Fall(s.playerY + t.velocity, t.velocity, t.jumpsRemaining, false), boxX, t.velocity, blocks);
    Moved(t.(playerX := Max(0.0, boxX), playerY := fall.y, velocity := fall.velocity,
             jumpsRemaining := fall.jumpsRemaining, mode := if fall.y > HEIGHT then Lose else s.mode),
          PlayerRect(boxX, fall.y), blocks)
  }

  /** Reaching the goal water starts the win sequence. */
  function EnterWater(s: State, box: Rect): (r: State)
    ensures r == s.(mode := r.mode, swimTimer := r.swimTimer)
  {
    if ReachesGoal(box, s.waters) then s.(mode := Win, swimTimer := 0) else s
  }

  /** Spawning and the bee pass; the level is lost when a sting leaves no
      life. The spawn column and the off-view test use the camera of the
      previous tick. */
  function Sting(s: State, box: Rect, cfg: Config): (r: State)
    ensures r == s.(bees := r.bees, fired := r.fired, lives := r.lives, mode := r.mode)
  {
    var spawn := SpawnBees(Spawn(s.bees, s.fired), s.triggers, s.playerX, s.cameraX, cfg.beeWidth, cfg.beeHeight);
    var sweep := SweepBees(spawn.bees, [], 0, box, s.cameraX);
    var lives := s.lives - sweep.hits;
    s.(bees := sweep.kept, fired := spawn.fired, lives := lives,
       mode := if sweep.hits > 0 && lives <= 0 then Lose else s.mode)
  }

  /** The egg pass. */
  function FlyEggs(s: State, blocks: seq<Rect>): (r: State)
    ensures r == s.(eggs := r.eggs, bees := r.bees)
  {
    var r := SweepEggs(s.eggs, EggSweep([], s.bees), blocks, s.cameraX);
    s.(eggs := r.kept, bees := r.bees)
  }

  /** The three collection passes; any chocolate collected doubles the
      speed and (re)starts a 7-second boost. */
  function Collect(s: State, box: Rect, cfg: Config, now: real): (r: State)
    ensures r == s.(toasts := r.toasts, toastCount := r.toastCount, cookies := r.cookies,
                    cookieCount := r.cookieCount, chocolates := r.chocolates, chocoCount := r.chocoCount,
                    speed := r.speed, boostActive := r.boostActive, chocoBoostEnd := r.chocoBoostEnd)
  {
    var eaten := TouchCount(s.chocolates, box);
    var s1 := s.(toasts := Uncollected(s.toasts, box), toastCount := s.toastCount + TouchCount(s.toasts, box))
               .(cookies := Uncollected(s.cookies, box), cookieCount := s.cookieCount + TouchCount(s.cookies, box))
               .(chocolates := Uncollected(s.chocolates, box), chocoCount := s.chocoCount + eaten);
    if eaten > 0 then s1.(speed := cfg.baseSpeed * 2.0, boostActive := true, chocoBoostEnd := now / 1000.0 + BOOST_SECONDS)
    else s1
  }

  /** The camera follows the clamped player. */
  function FollowCamera(s: State): State
  {
    s.(cameraX := CameraX(s.playerX, Cols(s)))
  }

  /** One tick of play, the passes in the game's order. */
  function PlayTick(s: State, cfg: Config, input: Input, now: real): State
  {
    var m := MovePlayer(ExpireBoost(s, cfg, now), cfg, input, now);
    var stung := Sting(EnterWater(m.s, m.box), m.box, cfg);
    FollowCamera(Collect(FlyEggs(stung, m.blocks), m.box, cfg, now))
  }

  /** One tick of the win sequence. */
  function WinTick(s: State): State
  {
    var timer := s.swimTimer + 1;
    var x := if timer >= SWIM_AWAY_TICK then s.playerX + SWIM_SPEED else s.playerX;
    s.(swimTimer := timer, playerX := x, cameraX := CameraX(x, Cols(s)),
       mode := if timer > SWIM_END_TICK then LevelSelect else s.mode)
  }

  /** One tick of the game loop, `now` being the clock in milliseconds.
      Outside play and the win sequence nothing of the game's logic moves. */
  function Tick(s: State, cfg: Config, input: Input, now: real): State
  {
    match s.mode
    case Win => WinTick(s)
    case Playing => PlayTick(s, cfg, input, now)
    case _ => s
  }

  // ===== keys and menus =====

  /** The quotient of `a` by `n` truncated toward zero. */
  function TruncDiv(a: int, n: int): int
    requires n > 0
  {
    if a >= 0 then a / n else -((-a) / n)
  }

  /** JavaScript's `%` on integers: what is left of `a` after taking away
      `n` times the truncated quotient, so the remainder takes the sign of
      the dividend. */
  function JsRem(a: int, n: int): (r: int)
    requires n > 0
    ensures r == a - n * TruncDiv(a, n)
    ensures a >= 0 ==> 0 <= r < n
    ensures a < 0 ==> -n < r <= 0
  {
    if a >= 0 then a % n else -((-a) % n)
  }

  /** `performMenuAction`: continue, replay the level, change level, or
      go home; any other option does nothing. */
  function MenuAction(s: State, option: int, cfg: Config, now: real): State
    requires IsLevel(s.selectedLevel) && |cfg.levels| == 5
  {
    if option == 0 then s.(mode := Playing)
    else if option == 1 then Init(s, s.selectedLevel, cfg, now).(mode := Playing)
    else if option == 2 then s.(mode := LevelSelect)
    else if option == 3 then s.(mode := Home)
    else s
  }

  /** The egg thrown by the space bar, from beside the duck in the
      direction it faces. */
  function ThrownEgg(s: State): Egg
  {
    Egg(s.playerX + (if s.facingRight then 20.0 else -20.0), s.playerY + 20.0,
        if s.facingRight then 8.0 else -8.0)
  }

  /** The level-select screen: the arrows move the cursor between 1 and
      5, Enter starts the level (level 1 through the tutorial). */
  function LevelSelectKey(s: State, key: Key, cfg: Config, now: real): State
    requires IsLevel(s.selectedLevel) && |cfg.levels| == 5
  {
    if key == ArrowUp then s.(selectedLevel := if s.selectedLevel - 1 >= 1 then s.selectedLevel - 1 else 1)
    else if key == ArrowDown then s.(selectedLevel := if s.selectedLevel + 1 <= 5 then s.selectedLevel + 1 else 5)
    else if key == Enter then
      if s.selectedLevel == 1 then s.(mode := Tutorial)
      else Init(s.(mode := Playing), s.selectedLevel, cfg, now)
    else s
  }

  /** The lose screen: the arrows move the cursor round its three options,
      Enter replays, goes home or goes to level select. */
  function LoseKey(s: State, key: Key, cfg: Config, now: real): State
    requires IsLevel(s.selectedLevel) && |cfg.levels| == 5
  {
    if key == ArrowUp then s.(loseOption := JsRem(s.loseOption - 1 + 3, 3))
    else if key == ArrowDown then s.(loseOption := JsRem(s.loseOption + 1, 3))
    else if key == Enter then
      if s.loseOption == 0 then Init(s.(mode := Playing), s.selectedLevel, cfg, now)
      else if s.loseOption == 1 then s.(mode := Home)
      else if s.loseOption == 2 then s.(mode := LevelSelect)
      else s
    else s
  }

  /** The pause menu: the arrows move the cursor round its four options,
      Enter picks one, Escape resumes. */
  function MenuKey(s: State, key: Key, cfg: Config, now: real): State
    requires IsLevel(s.selectedLevel) && |cfg.levels| == 5
  {
    if key == ArrowUp then s.(menuOption := JsRem(s.menuOption - 1 + 4, 4))
    else if key == ArrowDown then s.(menuOption := JsRem(s.menuOption + 1, 4))
    else if key == Enter then
      if s.menuOption == 0 then s.(mode := Playing)
      else if s.menuOption == 1 then Init(s, s.selectedLevel, cfg, now).(mode := Playing)
      else if s.menuOption == 2 then s.(mode := LevelSelect)
      else if s.menuOption == 3 then s.(mode := Home)
      else s
    else if key == Escape then s.(mode := Playing)
    else s
  }

  /** Play: Escape pauses, the space bar throws an egg. */
  function PlayingKey(s: State, key: Key): State
  {
    if key == Escape then s.(mode := Menu)
    else if key == Space then s.(eggs := s.eggs + [ThrownEgg(s)])
    else s
  }

  /** `handleKeyDown`: the key handler of every screen. */
  function KeyDown(s: State, key: Key, cfg: Config, now: real): State
    requires IsLevel(s.selectedLevel) && |cfg.levels| == 5
  {
    match s.mode
    case Home => if key == Enter || key == Tab then s.(mode := LevelSelect) else s
    case LevelSelect => LevelSelectKey(s, key, cfg, now)
    case Tutorial => if key == Enter then Init(s.(mode := Playing), s.selectedLevel, cfg, now) else s
    case Lose => LoseKey(s, key, cfg, now)
    case Menu => MenuKey(s, key, cfg, now)
    case Playing => PlayingKey(s, key)
    case Win => s
  }

  // ===== the invariant =====

  /** A level is loaded on every screen that shows one. */
  predicate Loaded(s: State)
  {
    (s.mode == Playing || s.mode == Menu || s.mode == Lose || s.mode == Win) ==> |s.tilemap| > 0
  }

  /** What holds between any two entry points: the cursors are in range,
      the player is right of the world's left edge with at most two jumps,
      the camera is within the level, the fired positions are positions of
      the table, and every pickup of the grid is either still in its list
      or counted as collected. */
  predicate Valid(s: State, cfg: Config)
  {
    IsLevel(s.selectedLevel) && 0 <= s.loseOption < 3 && 0 <= s.menuOption < 4 &&
    Loaded(s) &&
    s.playerX >= 0.0 && 0 <= s.jumpsRemaining <= MAX_JUMPS &&
    0.0 <= s.cameraX <= MaxCameraX(Cols(s)) &&
    s.fired <= TriggerXs(s.triggers) &&
    s.toastCount + |s.toasts| == TileCount(cfg.sizes.Toast(), s.tilemap) &&
    s.cookieCount + |s.cookies| == TileCount(cfg.sizes.Cookie(), s.tilemap) &&
    s.chocoCount + |s.chocolates| == TileCount(cfg.sizes.Chocolate(), s.tilemap)
  }

  lemma StartIsValid(cfg: Config)
    ensures Valid(Start(cfg), cfg)
    ensures Start(cfg).mode == Home && Start(cfg).selectedLevel == 1
  {
  }

  /** After `initGame(n)`: lives 3, counters 0, camera 0, the player at
      (200, 365) with two jumps and base speed, no bees, eggs or fired
      positions, and exactly one water, toast, cookie or chocolate
      rectangle per 'W', 'T', 'C' or 'H' tile of the grid. */
  lemma InitResets(s: State, n: int, cfg: Config, now: real)
    requires IsLevel(n) && |cfg.levels| == 5
    ensures var r := Init(s, n, cfg, now);
            var tilemap := cfg.levels[n - 1].tilemap;
            r.lives == 3 && r.toastCount == 0 && r.cookieCount == 0 && r.chocoCount == 0 &&
            r.cameraX == 0.0 && r.playerX == 200.0 && r.playerY == 365.0 &&
            r.jumpsRemaining == 2 && r.velocity == 0.0 && r.speed == cfg.baseSpeed && !r.boostActive &&
            r.bees == [] && r.eggs == [] && r.fired == {} &&
            r.tilemap == tilemap && r.triggers == cfg.levels[n - 1].triggers &&
            |r.waters| == TileCount(Water, tilemap) &&
            |r.toasts| == TileCount(cfg.sizes.Toast(), tilemap) &&
            |r.cookies| == TileCount(cfg.sizes.Cookie(), tilemap) &&
            |r.chocolates| == TileCount(cfg.sizes.Chocolate(), tilemap)
  {
    var tilemap := cfg.levels[n - 1].tilemap;
    ScanCount(Water, tilemap);
    ScanCount(cfg.sizes.Toast(), tilemap);
    ScanCount(cfg.sizes.Cookie(), tilemap);
    ScanCount(cfg.sizes.Chocolate(), tilemap);
  }

  /** A level start keeps the invariant, from any state whose cursors are
      in range. */
  lemma InitKeepsValid(s: State, n: int, cfg: Config, now: real)
    requires WellFormedCatalogue(cfg.levels)
    requires IsLevel(n) && IsLevel(s.selectedLevel) && 0 <= s.loseOption < 3 && 0 <= s.menuOption < 4
    ensures Valid(Init(s, n, cfg, now), cfg)
  {
    InitResets(s, n, cfg, now);
    assert |cfg.levels[n - 1].tilemap| > 0;
  }

  // ===== what a tick guarantees =====

  /** The movement part of a tick moves only the player: it keeps the
      player right of the world's left edge, the jump budget within 0..2
      and everything but the player's fields and the screen as it was. */
  lemma MovePlayerFacts(s: State, cfg: Config, input: Input, now: real)
    requires 0 <= s.jumpsRemaining <= MAX_JUMPS
    ensures var m := MovePlayer(s, cfg, input, now);
            m.s.playerX >= 0.0 && m.s.playerX == Max(0.0, m.box.x) && m.s.playerY == m.box.y &&
            0 <= m.s.jumpsRemaining <= MAX_JUMPS &&
            m.blocks == Scan(Solid, s.tilemap)
  {
    var dx := MoveX(input.right, input.left, s.speed);
    var t := Steer(s, cfg, input, now);
    var blocks := Scan(Solid, s.tilemap);
    var boxX := ResolveX(s.playerX + dx, s.playerY, dx, blocks);
    FallRefillsBudget(Fall(s.playerY + t.velocity, t.velocity, t.jumpsRemaining, false), boxX, t.velocity, blocks);
  }

  /** The bee part of a tick: the fired positions grow by exactly the
      positions the player has now reached, and lives drop by exactly the
      number of bees that touch the player after drifting. */
  lemma StingFacts(s: State, box: Rect, cfg: Config)
    ensures var r := Sting(s, box, cfg);
            var spawn := SpawnBees(Spawn(s.bees, s.fired), s.triggers, s.playerX, s.cameraX, cfg.beeWidth, cfg.beeHeight);
            r.fired == s.fired + Reached(s.triggers, s.playerX) &&
            r.lives == s.lives - HitCount(spawn.bees, box)
  {
    var spawn := SpawnBees(Spawn(s.bees, s.fired), s.triggers, s.playerX, s.cameraX, cfg.beeWidth, cfg.beeHeight);
    SpawnFiresReached(Spawn(s.bees, s.fired), s.triggers, s.playerX, s.cameraX, cfg.beeWidth, cfg.beeHeight);
    SweepCountsHits(spawn.bees, [], 0, box, s.cameraX);
  }

  /** Collecting moves pickups from their lists to their counters, one
      for one. */
  lemma CollectConserves(s: State, box: Rect, cfg: Config, now: real)
    ensures var r := Collect(s, box, cfg, now);
            r.toastCount + |r.toasts| == s.toastCount + |s.toasts| &&
            r.cookieCount + |r.cookies| == s.cookieCount + |s.cookies| &&
            r.chocoCount + |r.chocolates| == s.chocoCount + |s.chocolates|
  {
    CollectedPlusLeft(s.toasts, box);
    CollectedPlusLeft(s.cookies, box);
    CollectedPlusLeft(s.chocolates, box);
  }

  /** After a tick of play the camera is the clamped follow of the player:
      centred on it, never left of the world nor past its right end; the
      level and the screens' cursors are the same as before. */
  lemma PlayTickCamera(s: State, cfg: Config, input: Input, now: real)
    ensures var r := PlayTick(s, cfg, input, now);
            r.cameraX == CameraX(r.playerX, Cols(s)) && 0.0 <= r.cameraX <= MaxCameraX(Cols(s)) &&
            r.tilemap == s.tilemap && r.triggers == s.triggers &&
            r.selectedLevel == s.selectedLevel && r.loseOption == s.loseOption && r.menuOption == s.menuOption
  {
    var m := MovePlayer(ExpireBoost(s, cfg, now), cfg, input, now);
    var e := FlyEggs(Sting(EnterWater(m.s, m.box), m.box, cfg), m.blocks);
    var c := Collect(e, m.box, cfg, now);
    assert PlayTick(s, cfg, input, now) == FollowCamera(c);
  }

  /** After a tick of play the player is right of the world's left edge
      with 0..2 jumps left. */
  lemma PlayTickKeepsJumpBudget(s: State, cfg: Config, input: Input, now: real)
    requires 0 <= s.jumpsRemaining <= MAX_JUMPS
    ensures var r := PlayTick(s, cfg, input, now);
            r.playerX >= 0.0 && 0 <= r.jumpsRemaining <= MAX_JUMPS
  {
    var s1 := ExpireBoost(s, cfg, now);
    MovePlayerFacts(s1, cfg, input, now);
  }

  /** In a tick of play the fired positions grow by exactly the positions
      the player has reached, and lives drop by exactly the number of bees
      touching the player. */
  lemma PlayTickSpawnsAndStings(s: State, cfg: Config, input: Input, now: real)
    ensures var m := MovePlayer(ExpireBoost(s, cfg, now), cfg, input, now);
            var spawn := SpawnBees(Spawn(s.bees, s.fired), s.triggers, m.s.playerX, s.cameraX, cfg.beeWidth, cfg.beeHeight);
            var r := PlayTick(s, cfg, input, now);
            r.fired == s.fired + Reached(s.triggers, m.s.playerX) &&
            r.lives == s.lives - HitCount(spawn.bees, m.box)
  {
    var m := MovePlayer(ExpireBoost(s, cfg, now), cfg, input, now);
    var w := EnterWater(m.s, m.box);
    assert w.bees == s.bees && w.fired == s.fired && w.triggers == s.triggers && w.cameraX == s.cameraX && w.lives == s.lives;
    StingFacts(w, m.box, cfg);
  }

  /** Across a tick of play every pickup is either still in its list or
      counted: collecting moves pickups from the list to the counter. */
  lemma PlayTickConservesPickups(s: State, cfg: Config, input: Input, now: real)
    ensures var r := PlayTick(s, cfg, input, now);
            r.toastCount + |r.toasts| == s.toastCount + |s.toasts| &&
            r.cookieCount + |r.cookies| == s.cookieCount + |s.cookies| &&
            r.chocoCount + |r.chocolates| == s.chocoCount + |s.chocolates|
  {
    var m := MovePlayer(ExpireBoost(s, cfg, now), cfg, input, now);
    var e := FlyEggs(Sting(EnterWater(m.s, m.box), m.box, cfg), m.blocks);
    CollectConserves(e, m.box, cfg, now);
  }

  /** Eating a chocolate starts the boost: double base speed until seven
      seconds after now. */
  lemma ChocolateBoosts(s: State, cfg: Config, input: Input, now: real)
    requires TouchCount(s.chocolates, MovePlayer(ExpireBoost(s, cfg, now), cfg, input, now).box) > 0
    ensures var r := PlayTick(s, cfg, input, now);
            r.boostActive && r.speed == 2.0 * cfg.baseSpeed && r.chocoBoostEnd == now / 1000.0 + 7.0
  {
  }

  /** A boost strictly past its end, with no chocolate eaten this tick,
      is over: base speed again. */
  lemma BoostExpires(s: State, cfg: Config, input: Input, now: real)
    requires now / 1000.0 > s.chocoBoostEnd
    requires TouchCount(s.chocolates, MovePlayer(ExpireBoost(s, cfg, now), cfg, input, now).box) == 0
    ensures var r := PlayTick(s, cfg, input, now);
            !r.boostActive && r.speed == cfg.baseSpeed && r.chocoBoostEnd == s.chocoBoostEnd
  {
  }

  /** Falling below the screen loses the level, unless the same tick
      reaches the goal water (the win test comes after the fall test). */
  lemma FallingLoses(s: State, cfg: Config, input: Input, now: real)
    requires var m := MovePlayer(ExpireBoost(s, cfg, now), cfg, input, now);
             m.s.playerY > HEIGHT && !ReachesGoal(m.box, s.waters)
    ensures PlayTick(s, cfg, input, now).mode == Lose
  {
  }

  /** Reaching the goal water wins, unless a sting takes the last life in
      the same tick; the win sequence starts with its timer at 0. */
  lemma GoalWins(s: State, cfg: Config, input: Input, now: real)
    requires var m := MovePlayer(ExpireBoost(s, cfg, now), cfg, input, now);
             ReachesGoal(m.box, s.waters) && PlayTick(s, cfg, input, now).lives > 0
    ensures PlayTick(s, cfg, input, now).mode == Win && PlayTick(s, cfg, input, now).swimTimer == 0
  {
  }

  /** Outside play and the win sequence a tick changes nothing. */
  lemma IdleTickChangesNothing(s: State, cfg: Config, input: Input, now: real)
    requires s.mode != Playing && s.mode != Win
    ensures Tick(s, cfg, input, now) == s
  {
  }

  /** The invariant carries over to a state that plays on in the same
      level: cursors unchanged, player, jumps and camera in range, fired
      positions from the same table and pickups conserved. */
  lemma PlayedKeepsValid(s: State, r: State, cfg: Config)
    requires Valid(s, cfg) && r.tilemap == s.tilemap && r.triggers == s.triggers && |s.tilemap| > 0
    requires r.selectedLevel == s.selectedLevel && r.loseOption == s.loseOption && r.menuOption == s.menuOption
    requires r.playerX >= 0.0 && 0 <= r.jumpsRemaining <= MAX_JUMPS && 0.0 <= r.cameraX <= MaxCameraX(Cols(s))
    requires r.fired <= TriggerXs(s.triggers)
    requires r.toastCount + |r.toasts| == s.toastCount + |s.toasts|
    requires r.cookieCount + |r.cookies| == s.cookieCount + |s.cookies|
    requires r.chocoCount + |r.chocolates| == s.chocoCount + |s.chocolates|
    ensures Valid(r, cfg)
  {
  }

  /** A tick of play keeps the invariant. */
  lemma PlayTickKeepsValid(s: State, cfg: Config, input: Input, now: real)
    requires Valid(s, cfg) && s.mode == Playing
    ensures Valid(PlayTick(s, cfg, input, now), cfg)
  {
    var m := MovePlayer(ExpireBoost(s, cfg, now), cfg, input, now);
    var r := PlayTick(s, cfg, input, now);
    PlayTickCamera(s, cfg, input, now);
    PlayTickKeepsJumpBudget(s, cfg, input, now);
    PlayTickSpawnsAndStings(s, cfg, input, now);
    PlayTickConservesPickups(s, cfg, input, now);
    ReachedAreTriggers(s.triggers, m.s.playerX);
    PlayedKeepsValid(s, r, cfg);
  }

  /** Every tick keeps the invariant. */
  lemma TickKeepsValid(s: State, cfg: Config, input: Input, now: real)
    requires Valid(s, cfg)
    ensures Valid(Tick(s, cfg, input, now), cfg)
  {
    if s.mode == Playing {
      PlayTickKeepsValid(s, cfg, input, now);
    }
  }

  // ===== the win sequence =====

  /** In the win sequence the game loop's tick is the win tick. */
  lemma WinTickIsTick(s: State, cfg: Config, input: Input, now: real)
    requires s.mode == Win
    ensures Tick(s, cfg, input, now) == WinTick(s)
  {
  }

  /** `n` ticks of the win sequence. */
  function WinTicks(s: State, n: nat): State
    decreases n
  {
    if n == 0 then s else WinTick(WinTicks(s, n - 1))
  }

  /** The win sequence: for 120 ticks after reaching the goal the game
      stays on the win screen with the timer counting the ticks; the duck
      swims in place for the first 59 and then 4 units further right on
      every tick, the camera following it. */
  lemma {:induction false} WinSequence(s: State, k: nat)
    requires s.mode == Win && s.swimTimer == 0 && k <= 120
    ensures var r := WinTicks(s, k);
            r.mode == Win && r.swimTimer == k &&
            r.playerX == s.playerX + SWIM_SPEED * (if k >= 60 then k - 59 else 0) as real &&
            (k > 0 ==> r.cameraX == CameraX(r.playerX, Cols(s))) &&
            r.tilemap == s.tilemap
    decreases k
  {
    if k > 0 {
      WinSequence(s, k - 1);
    }
  }

  /** The 121st tick after reaching the goal returns to level select. */
  lemma WinReturnsToLevelSelect(s: State)
    requires s.mode == Win && s.swimTimer == 0
    ensures WinTicks(s, 120).mode == Win
    ensures WinTicks(s, 121).mode == LevelSelect
  {
    WinSequence(s, 120);
  }

  // ===== what the keys guarantee =====

  /** Moving a cursor within its range keeps the invariant. */
  lemma CursorMoveKeepsValid(s: State, cfg: Config, level: int, loseOption: int, menuOption: int)
    requires Valid(s, cfg) && IsLevel(level) && 0 <= loseOption < 3 && 0 <= menuOption < 4
    ensures Valid(s.(selectedLevel := level, loseOption := loseOption, menuOption := menuOption), cfg)
  {
  }

  /** Changing screen keeps the invariant, as long as a screen that shows
      a level has one loaded. */
  lemma ScreenChangeKeepsValid(s: State, cfg: Config, mode: Mode)
    requires Valid(s, cfg) && Loaded(s.(mode := mode))
    ensures Valid(s.(mode := mode), cfg)
  {
  }

  /** The keys of the level-select screen keep the invariant. */
  lemma LevelSelectKeyKeepsValid(s: State, key: Key, cfg: Config, now: real)
    requires Valid(s, cfg) && WellFormedCatalogue(cfg.levels) && s.mode == LevelSelect
    ensures Valid(LevelSelectKey(s, key, cfg, now), cfg)
  {
    var r := LevelSelectKey(s, key, cfg, now);
    if key == ArrowUp || key == ArrowDown {
      CursorMoveKeepsValid(s, cfg, r.selectedLevel, s.loseOption, s.menuOption);
    } else if key == Enter && s.selectedLevel == 1 {
      ScreenChangeKeepsValid(s, cfg, Tutorial);
    } else if key == Enter {
      InitKeepsValid(s.(mode := Playing), s.selectedLevel, cfg, now);
    }
  }

  /** The keys of the lose screen keep the invariant. */
  lemma LoseKeyKeepsValid(s: State, key: Key, cfg: Config, now: real)
    requires Valid(s, cfg) && WellFormedCatalogue(cfg.levels) && s.mode == Lose
    ensures Valid(LoseKey(s, key, cfg, now), cfg)
  {
    var r := LoseKey(s, key, cfg, now);
    if key == ArrowUp || key == ArrowDown {
      CursorMoveKeepsValid(s, cfg, s.selectedLevel, r.loseOption, s.menuOption);
    } else if key == Enter && s.loseOption == 0 {
      InitKeepsValid(s.(mode := Playing), s.selectedLevel, cfg, now);
    } else if key == Enter {
      ScreenChangeKeepsValid(s, cfg, r.mode);
    }
  }

  /** The keys of the pause menu keep the invariant. */
  lemma MenuKeyKeepsValid(s: State, key: Key, cfg: Config, now: real)
    requires Valid(s, cfg) && WellFormedCatalogue(cfg.levels) && s.mode == Menu
    ensures Valid(MenuKey(s, key, cfg, now), cfg)
  {
    var r := MenuKey(s, key, cfg, now);
    if key == ArrowUp || key == ArrowDown {
      CursorMoveKeepsValid(s, cfg, s.selectedLevel, s.loseOption, r.menuOption);
    } else if key == Enter && s.menuOption == 1 {
      InitKeepsValid(s, s.selectedLevel, cfg, now);
      ScreenChangeKeepsValid(Init(s, s.selectedLevel, cfg, now), cfg, Playing);
    } else {
      ScreenChangeKeepsValid(s, cfg, r.mode);
    }
  }

  /** Every action of the pause menu keeps the invariant when taken from
      the pause menu. */
  lemma MenuActionKeepsValid(s: State, option: int, cfg: Config, now: real)
    requires Valid(s, cfg) && WellFormedCatalogue(cfg.levels) && s.mode == Menu
    ensures Valid(MenuAction(s, option, cfg, now), cfg)
  {
    if option == 1 {
      InitKeepsValid(s, s.selectedLevel, cfg, now);
      ScreenChangeKeepsValid(Init(s, s.selectedLevel, cfg, now), cfg, Playing);
    } else {
      ScreenChangeKeepsValid(s, cfg, MenuAction(s, option, cfg, now).mode);
    }
  }

  /** Every key press keeps the invariant. */
  lemma KeyDownKeepsValid(s: State, key: Key, cfg: Config, now: real)
    requires Valid(s, cfg) && WellFormedCatalogue(cfg.levels)
    ensures Valid(KeyDown(s, key, cfg, now), cfg)
  {
    match s.mode
    case Home => ScreenChangeKeepsValid(s, cfg, KeyDown(s, key, cfg, now).mode);
    case LevelSelect => LevelSelectKeyKeepsValid(s, key, cfg, now);
    case Tutorial =>
      if key == Enter {
        InitKeepsValid(s.(mode := Playing), s.selectedLevel, cfg, now);
      }
    case Lose => LoseKeyKeepsValid(s, key, cfg, now);
    case Menu => MenuKeyKeepsValid(s, key, cfg, now);
    case Playing => ScreenChangeKeepsValid(s.(eggs := PlayingKey(s, key).eggs), cfg, PlayingKey(s, key).mode);
    case Win =>
  }

  /** With the game's own level table, every tick and every key press
      keeps the invariant. */
  lemma CatalogueKeepsValid(s: State, cfg: Config, input: Input, key: Key, now: real)
    requires cfg.levels == Catalogue() && Valid(s, cfg)
    ensures Valid(Tick(s, cfg, input, now), cfg)
    ensures Valid(KeyDown(s, key, cfg, now), cfg)
  {
    CatalogueWellFormed();
    TickKeepsValid(s, cfg, input, now);
    KeyDownKeepsValid(s, key, cfg, now);
  }

  /** The level cursor moves by one and stops at 1 and at 5. */
  lemma LevelCursorClamps(s: State, cfg: Config, now: real)
    requires s.mode == LevelSelect && IsLevel(s.selectedLevel) && |cfg.levels| == 5
    ensures var up := KeyDown(s, ArrowUp, cfg, now).selectedLevel;
            var down := KeyDown(s, ArrowDown, cfg, now).selectedLevel;
            IsLevel(up) && IsLevel(down) &&
            (s.selectedLevel > 1 <==> up == s.selectedLevel - 1) &&
            (s.selectedLevel < 5 <==> down == s.selectedLevel + 1)
  {
  }

  /** The menu cursor wraps: from the first option up goes to the last,
      from the last down to the first, and up then down comes back. */
  lemma MenuCursorWraps(s: State, cfg: Config, now: real)
    requires s.mode == Menu && IsLevel(s.selectedLevel) && |cfg.levels| == 5 && 0 <= s.menuOption < 4
    ensures s.menuOption == 0 ==> KeyDown(s, ArrowUp, cfg, now).menuOption == 3
    ensures s.menuOption == 3 ==> KeyDown(s, ArrowDown, cfg, now).menuOption == 0
    ensures KeyDown(KeyDown(s, ArrowUp, cfg, now), ArrowDown, cfg, now) == s
  {
  }

  /** The lose-screen cursor wraps over its three options the same way. */
  lemma LoseCursorWraps(s: State, cfg: Config, now: real)
    requires s.mode == Lose && IsLevel(s.selectedLevel) && |cfg.levels| == 5 && 0 <= s.loseOption < 3
    ensures s.loseOption == 0 ==> KeyDown(s, ArrowUp, cfg, now).loseOption == 2
    ensures s.loseOption == 2 ==> KeyDown(s, ArrowDown, cfg, now).loseOption == 0
    ensures KeyDown(KeyDown(s, ArrowUp, cfg, now), ArrowDown, cfg, now) == s
  {
  }

  /** Escape opens the pause menu during play and a second Escape resumes
      exactly where the game was. */
  lemma EscapePausesAndResumes(s: State, cfg: Config, now: real)
    requires s.mode == Playing && IsLevel(s.selectedLevel) && |cfg.levels| == 5
    ensures KeyDown(s, Escape, cfg, now).mode == Menu
    ensures KeyDown(KeyDown(s, Escape, cfg, now), Escape, cfg, now) == s
  {
  }

  /** Enter on the pause menu does what touching the highlighted option
      does. */
  lemma MenuEnterIsMenuAction(s: State, cfg: Config, now: real)
    requires s.mode == Menu && IsLevel(s.selectedLevel) && |cfg.levels| == 5
    ensures KeyDown(s, Enter, cfg, now) == MenuAction(s, s.menuOption, cfg, now)
  {
  }

  /** Space throws an egg from beside the duck, flying the way it faces,
      and changes nothing else. */
  lemma SpaceThrowsEgg(s: State, cfg: Config, now: real)
    requires s.mode == Playing && IsLevel(s.selectedLevel) && |cfg.levels| == 5
    ensures var r := KeyDown(s, Space, cfg, now);
            r.eggs == s.eggs + [ThrownEgg(s)] && r == s.(eggs := r.eggs) &&
            (s.facingRight ==> ThrownEgg(s).dx > 0.0 && ThrownEgg(s).x > s.playerX) &&
            (!s.facingRight ==> ThrownEgg(s).dx < 0.0 && ThrownEgg(s).x < s.playerX)
  {
  }

  /** Starting level 1 goes through the tutorial; every other level starts
      at once. */
  lemma LevelOneHasTutorial(s: State, cfg: Config, now: real)
    requires s.mode == LevelSelect && IsLevel(s.selectedLevel) && |cfg.levels| == 5
    ensures var r := KeyDown(s, Enter, cfg, now);
            (s.selectedLevel == 1 ==> r.mode == Tutorial) &&
            (s.selectedLevel != 1 ==> r.mode == Playing && r.lives == 3 && r.tilemap == cfg.levels[s.selectedLevel - 1].tilemap)
  {
  }
}
