/** The game as the program runs it: one object holding every global the
    game's logic reads or writes, updated in place by the game loop's
    `update`, by `initGame`, by the key handler and by the pause menu.
    Related globals are kept together in small records (the screen and
    its cursors, the duck, the food); each method is proved to leave the
    object in the state that the matching function of `Simulation`
    computes from the state before. */
module Engine {
  import opened Geometry
  import opened Levels
  import opened Tiles
  import opened Kinematics
  import opened Spawning
  import opened Bees
  import opened Eggs
  import opened Pickups
  import opened Simulation

  /** Which screen shows, the level-select cursor (1..5) and the cursors
      of the lose screen (0..2) and of the pause menu (0..3). */
  datatype Screen = Screen(mode: Mode, selectedLevel: int, loseOption: int, menuOption: int)

  /** The duck: its position, horizontal speed, vertical velocity, jumps
      left, the chocolate boost and when it ends (s), its facing and the
      latch of the on-screen jump button. */
  datatype Duck = Duck(x: real, y: real, speed: real, velocity: real, jumpsRemaining: int,
                       boostActive: bool, chocoBoostEnd: real, facingRight: bool, jumpButton: bool)

  /** The pickups still in the level and how many of each were eaten. */
  datatype Food = Food(toasts: seq<Rect>, cookies: seq<Rect>, chocolates: seq<Rect>,
                       toastCount: int, cookieCount: int, chocoCount: int)

  class Game {
    /** Platform settings, image sizes and the level table. */
    const cfg: Config

    var screen: Screen
    var tilemap: seq<string>
    var triggers: seq<Trigger>
    var fired: set<int>
    var duck: Duck
    var swimTimer: int
    var lives: int
    var startTime: real
    var bees: seq<Rect>
    var eggs: seq<Egg>
    var food: Food
    var waters: seq<Rect>
    var cameraX: real

    /** The globals as one value. */
    function Snapshot(): State
      reads this
    {
      State(screen.mode, screen.selectedLevel, screen.loseOption, screen.menuOption, tilemap, triggers,
            duck.x, duck.y, duck.speed, duck.velocity, duck.jumpsRemaining,
            duck.boostActive, duck.chocoBoostEnd, duck.facingRight, duck.jumpButton,
            swimTimer, lives, startTime, bees, fired, eggs,
            food.toasts, food.cookies, food.chocolates, waters, cameraX,
            food.toastCount, food.cookieCount, food.chocoCount)
    }

    /** The invariant of the globals, for a well-formed level table. */
    predicate Invariant()
      reads this
    {
      WellFormedCatalogue(cfg.levels) && Simulation.Valid(Snapshot(), cfg)
    }

    /** The globals as the page loads them. */
    constructor(cfg: Config)
      requires WellFormedCatalogue(cfg.levels)
      ensures this.cfg == cfg && Snapshot() == Start(cfg) && Invariant()
    {
      this.cfg := cfg;
      screen := Screen(Home, 1, 0, 0);
      tilemap, triggers, fired := [], [], {};
      duck := Duck(START_X, START_Y, cfg.baseSpeed, 0.0, MAX_JUMPS, false, 0.0, true, false);
      swimTimer, lives, startTime := 0, START_LIVES, 0.0;
      bees, eggs := [], [];
      food := Food([], [], [], 0, 0, 0);
      waters, cameraX := [], 0.0;
      new;
      StartIsValid(cfg);
    }

    /** `initGame(n)`, `now` being the clock in milliseconds. */
    method InitGame(n: int, now: real)
      requires IsLevel(n) && |cfg.levels| == 5
      modifies this
      ensures Snapshot() == Init(old(Snapshot()), n, cfg, now)
    {
      LoadLevel(n);
      ResetDuck();
      ResetRun(now);
      ParseLevel();
    }

    /** Level n's trigger table and grid, no trigger fired yet. */
    method LoadLevel(n: int)
      requires IsLevel(n) && |cfg.levels| == 5
      modifies this
      ensures Snapshot() == old(Snapshot()).(triggers := cfg.levels[n - 1].triggers, fired := {},
                                              tilemap := cfg.levels[n - 1].tilemap)
    {
      triggers := cfg.levels[n - 1].triggers;
      fired := {};
      tilemap := cfg.levels[n - 1].tilemap;
    }

    /** The duck back at the start, at base speed, at rest, with both
        jumps and no boost; its facing and the jump latch are kept. */
    method ResetDuck()
      modifies this
      ensures Snapshot() == old(Snapshot()).(playerX := START_X, playerY := START_Y, speed := cfg.baseSpeed,
                                              velocity := 0.0, jumpsRemaining := MAX_JUMPS,
                                              boostActive := false, chocoBoostEnd := 0.0)
    {
      duck := duck.(x := START_X, y := START_Y, speed := cfg.baseSpeed, velocity := 0.0,
                    jumpsRemaining := MAX_JUMPS, boostActive := false, chocoBoostEnd := 0.0);
    }

    /** No bee and no egg, the camera at the world's left edge, full lives
        and the run's start time (in seconds). */
    method ResetRun(now: real)
      modifies this
      ensures Snapshot() == old(Snapshot()).(bees := [], cameraX := 0.0, startTime := now / 1000.0,
                                              lives := START_LIVES, eggs := [])
    {
      bees, cameraX, startTime, lives, eggs := [], 0.0, now / 1000.0, START_LIVES, [];
    }

    /** The loaded grid's water and pickups, nothing eaten yet. */
    method ParseLevel()
      modifies this
      ensures Snapshot() == old(Snapshot()).(waters := Scan(Water, tilemap), toasts := Scan(cfg.sizes.Toast(), tilemap),
                                              cookies := Scan(cfg.sizes.Cookie(), tilemap),
                                              chocolates := Scan(cfg.sizes.Chocolate(), tilemap),
                                              toastCount := 0, cookieCount := 0, chocoCount := 0)
    {
      food, waters := Food([], [], [], 0, 0, 0), [];
      var w, t, c, h := ParseTilemap(tilemap, cfg.sizes);
      waters, food := w, food.(toasts := t, cookies := c, chocolates := h);
    }

    /** `update()`: one tick of the game loop, `now` being the clock in
        milliseconds; it keeps the invariant. */
    method Update(input: Input, now: real)
      modifies this
      ensures Snapshot() == Tick(old(Snapshot()), cfg, input, now)
      ensures old(Invariant()) ==> Invariant()
    {
      ghost var s := Snapshot();
      if screen.mode == Win {
        Swim();
      } else if screen.mode == Playing {
        Play(input, now);
      }
      if WellFormedCatalogue(cfg.levels) && Simulation.Valid(s, cfg) {
        TickKeepsValid(s, cfg, input, now);
      }
    }

    /** One tick of the win sequence. */
    method Swim()
      modifies this
      ensures Snapshot() == WinTick(old(Snapshot()))
    {
      swimTimer := swimTimer + 1;
      var cols := if |tilemap| > 0 then |tilemap[0]| else 0;
      cameraX := CameraX(duck.x, cols);
      if swimTimer < SWIM_AWAY_TICK {
        // swimming in place
      } else {
        duck := duck.(x := duck.x + SWIM_SPEED);
        cameraX := CameraX(duck.x, cols);
      }
      if swimTimer > SWIM_END_TICK {
        screen := screen.(mode := LevelSelect);
      }
    }

    /** One tick of play, the passes in the game's order. */
    method Play(input: Input, now: real)
      modifies this
      ensures Snapshot() == PlayTick(old(Snapshot()), cfg, input, now)
    {
      ExpireBoostStep(now);
      var box, blocks := Move(input, now);
      EnterWaterStep(box);
      StingStep(box);
      FlyEggsStep(blocks);
      CollectStep(box, now);
      FollowCameraStep();
    }

    /** The boost ends once the clock is past its end. */
    method ExpireBoostStep(now: real)
      modifies this
      ensures Snapshot() == ExpireBoost(old(Snapshot()), cfg, now)
    {
      if now / 1000.0 > duck.chocoBoostEnd {
        duck := duck.(speed := cfg.baseSpeed, boostActive := false);
      }
    }

    /** Input, jump, gravity, the block derivation, the two push-out
        passes, the clamp at the world's left edge and the fall check;
        returns the player's box and the blocks of this tick. */
    method Move(input: Input, now: real) returns (box: Rect, blocks: seq<Rect>)
      modifies this
      ensures var m := MovePlayer(old(Snapshot()), cfg, input, now);
              Snapshot() == m.s && box == m.box && blocks == m.blocks
    {
      var moveX := 0.0;
      if input.right && !input.left {
        moveX := moveX + duck.speed;
      }
      if input.left && !input.right {
        moveX := moveX - duck.speed;
      }
      assert moveX == MoveX(input.right, input.left, duck.speed);
      Steer(input, now, moveX);
      var moveY := duck.velocity;
      blocks := DeriveBlocks(tilemap);
      var x := ResolveHorizontal(duck.x + moveX, duck.y, moveX, blocks);
      var fall := ResolveVertical(Fall(duck.y + moveY, duck.velocity, duck.jumpsRemaining, false), x, moveY, blocks);
      box := PlayerRect(x, fall.y);
      Settle(box, fall);
    }

    /** The jump (up or the touch button, with a jump left and not
        rising), the facing and gravity, `moveX` being this tick's
        horizontal displacement. */
    method Steer(input: Input, now: real, moveX: real)
      requires moveX == MoveX(input.right, input.left, duck.speed)
      modifies this
      ensures Snapshot() == Simulation.Steer(old(Snapshot()), cfg, input, now)
    {
      TryJump(input.up, now);
      Turn(moveX);
    }

    /** The jump, when up or the touch button is held, a jump is left,
        the cooldown has passed and the duck is not rising. */
    method TryJump(up: bool, now: real)
      modifies this
      ensures var js := Jump(JumpState(old(duck.velocity), old(duck.jumpsRemaining), old(duck.jumpButton)),
                             up, old(duck.boostActive), now);
              Snapshot() == old(Snapshot()).(velocity := js.velocity, jumpsRemaining := js.jumpsRemaining,
                                             jumpButton := js.jumpButton)
    {
      var lastJumpTime := 0.0;
      if (up || duck.jumpButton) && duck.jumpsRemaining > 0 && now - lastJumpTime > JUMP_COOLDOWN {
        if duck.velocity >= 0.0 {
          duck := duck.(velocity := if duck.boostActive then BOOST_JUMP_POWER else JUMP_POWER,
                        jumpsRemaining := duck.jumpsRemaining - 1, jumpButton := false);
        }
      }
    }

    /** The facing follows the horizontal displacement; gravity acts. */
    method Turn(moveX: real)
      modifies this
      ensures Snapshot() == old(Snapshot()).(velocity := old(duck.velocity) + cfg.gravity,
                                             facingRight := if moveX > 0.0 then true
                                                            else if moveX < 0.0 then false
                                                            else old(duck.facingRight))
    {
      duck := duck.(facingRight := if moveX > 0.0 then true else if moveX < 0.0 then false else duck.facingRight,
                    velocity := duck.velocity + cfg.gravity);
    }

    /** The outcome of the vertical pass, the clamp at the world's left
        edge and the fall below the screen. */
    method Settle(box: Rect, fall: Fall)
      modifies this
      ensures Snapshot() == old(Snapshot()).(velocity := fall.velocity, jumpsRemaining := fall.jumpsRemaining,
                                              playerX := Max(0.0, box.x), playerY := box.y,
                                              mode := if box.y > HEIGHT then Lose else old(screen.mode))
    {
      duck := duck.(velocity := fall.velocity, jumpsRemaining := fall.jumpsRemaining);
      duck := duck.(x := Max(0.0, box.x), y := box.y);
      if duck.y > HEIGHT {
        screen := screen.(mode := Lose);
      }
    }

    /** Reaching the goal water starts the win sequence. */
    method EnterWaterStep(box: Rect)
      modifies this
      ensures Snapshot() == EnterWater(old(Snapshot()), box)
    {
      var won := CheckGoal(box, waters);
      if won {
        screen, swimTimer := screen.(mode := Win), 0;
      }
    }

    /** The bee spawn and the bee pass; losing the last life loses the
        level. */
    method StingStep(box: Rect)
      modifies this
      ensures Snapshot() == Sting(old(Snapshot()), box, cfg)
    {
      SpawnStep();
      BeePass(box);
    }

    /** Every trigger the duck has reached fires once, spawning a bee. */
    method SpawnStep()
      modifies this
      ensures var spawn := SpawnBees(Spawn(old(bees), old(fired)), old(triggers), old(duck.x), old(cameraX),
                                     cfg.beeWidth, cfg.beeHeight);
              Snapshot() == old(Snapshot()).(bees := spawn.bees, fired := spawn.fired)
    {
      var spawn := SpawnFromTriggers(Spawn(bees, fired), triggers, duck.x, cameraX, cfg.beeWidth, cfg.beeHeight);
      bees, fired := spawn.bees, spawn.fired;
    }

    /** The bee pass: every bee that touches the player costs a life and
        goes; so does every bee off the view's left edge. */
    method BeePass(box: Rect)
      modifies this
      ensures var sweep := SweepBees(old(bees), [], 0, box, old(cameraX));
              Snapshot() == old(Snapshot()).(bees := sweep.kept, lives := old(lives) - sweep.hits,
                                             mode := if sweep.hits > 0 && old(lives) - sweep.hits <= 0 then Lose
                                                     else old(screen.mode))
    {
      var lost;
      bees, lives, lost := UpdateBees(bees, box, cameraX, lives);
      if lost {
        screen := screen.(mode := Lose);
      }
    }

    /** The three collection passes; a chocolate starts the boost. */
    method CollectStep(box: Rect, now: real)
      modifies this
      ensures Snapshot() == Collect(old(Snapshot()), box, cfg, now)
    {
      EatToasts(box);
      EatCookies(box);
      EatChocolates(box, now);
    }

    /** The toasts the player touches are eaten and counted. */
    method EatToasts(box: Rect)
      modifies this
      ensures Snapshot() == old(Snapshot()).(toasts := Uncollected(old(food.toasts), box),
                                             toastCount := old(food.toastCount) + TouchCount(old(food.toasts), box))
    {
      var left, eaten := CollectPickups(food.toasts, box);
      food := food.(toasts := left, toastCount := food.toastCount + eaten);
    }

    /** The cookies the player touches are eaten and counted. */
    method EatCookies(box: Rect)
      modifies this
      ensures Snapshot() == old(Snapshot()).(cookies := Uncollected(old(food.cookies), box),
                                             cookieCount := old(food.cookieCount) + TouchCount(old(food.cookies), box))
    {
      var left, eaten := CollectPickups(food.cookies, box);
      food := food.(cookies := left, cookieCount := food.cookieCount + eaten);
    }

    /** The chocolates the player touches are eaten and counted; eating
        any starts (or restarts) the boost: double speed for seven seconds. */
    method EatChocolates(box: Rect, now: real)
      modifies this
      ensures var eaten := TouchCount(old(food.chocolates), box);
              var s1 := old(Snapshot()).(chocolates := Uncollected(old(food.chocolates), box),
                                         chocoCount := old(food.chocoCount) + eaten);
              Snapshot() == if eaten > 0 then s1.(speed := cfg.baseSpeed * 2.0, boostActive := true,
                                                  chocoBoostEnd := now / 1000.0 + BOOST_SECONDS)
                            else s1
    {
      var left, eaten := CollectPickups(food.chocolates, box);
      food := food.(chocolates := left, chocoCount := food.chocoCount + eaten);
      if eaten > 0 {
        duck := duck.(speed := cfg.baseSpeed * 2.0, boostActive := true, chocoBoostEnd := now / 1000.0 + BOOST_SECONDS);
      }
    }

    /** The egg pass. */
    method FlyEggsStep(blocks: seq<Rect>)
      modifies this
      ensures Snapshot() == FlyEggs(old(Snapshot()), blocks)
    {
      eggs, bees := UpdateEggs(eggs, bees, blocks, cameraX);
    }

    /** The camera follows the duck. */
    method FollowCameraStep()
      modifies this
      ensures Snapshot() == FollowCamera(old(Snapshot()))
    {
      cameraX := CameraX(duck.x, if |tilemap| > 0 then |tilemap[0]| else 0);
    }

    /** `performMenuAction(option)`; taken from the pause menu, it keeps
        the invariant. */
    method PerformMenuAction(option: int, now: real)
      requires IsLevel(screen.selectedLevel) && |cfg.levels| == 5
      modifies this
      ensures Snapshot() == MenuAction(old(Snapshot()), option, cfg, now)
      ensures old(Invariant()) && old(screen.mode) == Menu ==> Invariant()
    {
      ghost var s := Snapshot();
      ApplyMenuAction(option, now);
      if WellFormedCatalogue(cfg.levels) && Simulation.Valid(s, cfg) && s.mode == Menu {
        MenuActionKeepsValid(s, option, cfg, now);
      }
    }

    /** The state change of `performMenuAction(option)`. */
    method ApplyMenuAction(option: int, now: real)
      requires IsLevel(screen.selectedLevel) && |cfg.levels| == 5
      modifies this
      ensures Snapshot() == MenuAction(old(Snapshot()), option, cfg, now)
    {
      if option == 0 {
        screen := screen.(mode := Playing);
      } else if option == 1 {
        InitGame(screen.selectedLevel, now);
        screen := screen.(mode := Playing);
      } else if option == 2 {
        screen := screen.(mode := LevelSelect);
      } else if option == 3 {
        screen := screen.(mode := Home);
      }
    }

    /** `handleKeyDown`: the key handler of every screen; it keeps the
        invariant. */
    method HandleKeyDown(key: Key, now: real)
      requires IsLevel(screen.selectedLevel) && |cfg.levels| == 5
      modifies this
      ensures Snapshot() == KeyDown(old(Snapshot()), key, cfg, now)
      ensures old(Invariant()) ==> Invariant()
    {
      ghost var s := Snapshot();
      DispatchKey(key, now);
      if WellFormedCatalogue(cfg.levels) && Simulation.Valid(s, cfg) {
        KeyDownKeepsValid(s, key, cfg, now);
      }
    }

    /** The key goes to the handler of the screen that shows. */
    method DispatchKey(key: Key, now: real)
      requires IsLevel(screen.selectedLevel) && |cfg.levels| == 5
      modifies this
      ensures Snapshot() == KeyDown(old(Snapshot()), key, cfg, now)
    {
      var mode := screen.mode;
      if mode == Home && (key == Enter || key == Tab) {
        screen := screen.(mode := LevelSelect);
      } else if mode == LevelSelect {
        LevelSelectKeyDown(key, now);
      } else if mode == Tutorial && key == Enter {
        screen := screen.(mode := Playing);
        InitGame(screen.selectedLevel, now);
      } else if mode == Lose {
        LoseKeyDown(key, now);
      } else if mode == Menu {
        MenuKeyDown(key, now);
      } else if mode == Playing {
        PlayingKeyDown(key);
      }
    }

    /** The keys of the level-select screen. */
    method LevelSelectKeyDown(key: Key, now: real)
      requires IsLevel(screen.selectedLevel) && |cfg.levels| == 5
      modifies this
      ensures Snapshot() == LevelSelectKey(old(Snapshot()), key, cfg, now)
    {
      var level := screen.selectedLevel;
      if key == ArrowUp {
        screen := screen.(selectedLevel := if level - 1 >= 1 then level - 1 else 1);
      } else if key == ArrowDown {
        screen := screen.(selectedLevel := if level + 1 <= 5 then level + 1 else 5);
      } else if key == Enter {
        if level == 1 {
          screen := screen.(mode := Tutorial);
        } else {
          screen := screen.(mode := Playing);
          InitGame(level, now);
        }
      }
    }

    /** The keys of the lose screen. */
    method LoseKeyDown(key: Key, now: real)
      requires IsLevel(screen.selectedLevel) && |cfg.levels| == 5
      modifies this
      ensures Snapshot() == LoseKey(old(Snapshot()), key, cfg, now)
    {
      var option := screen.loseOption;
      if key == ArrowUp {
        screen := screen.(loseOption := JsRem(option - 1 + 3, 3));
      } else if key == ArrowDown {
        screen := screen.(loseOption := JsRem(option + 1, 3));
      } else if key == Enter {
        if option == 0 {
          screen := screen.(mode := Playing);
          InitGame(screen.selectedLevel, now);
        } else if option == 1 {
          screen := screen.(mode := Home);
        } else if option == 2 {
          screen := screen.(mode := LevelSelect);
        }
      }
    }

    /** The keys of the pause menu; Enter performs the chosen option. */
    method MenuKeyDown(key: Key, now: real)
      requires IsLevel(screen.selectedLevel) && |cfg.levels| == 5
      modifies this
      ensures Snapshot() == MenuKey(old(Snapshot()), key, cfg, now)
    {
      var option := screen.menuOption;
      if key == ArrowUp {
        screen := screen.(menuOption := JsRem(option - 1 + 4, 4));
      } else if key == ArrowDown {
        screen := screen.(menuOption := JsRem(option + 1, 4));
      } else if key == Enter {
        PerformMenuAction(option, now);
      } else if key == Escape {
        screen := screen.(mode := Playing);
      }
    }

    /** The keys of play: Escape pauses, the space bar throws an egg from
        beside the duck in the direction it faces. */
    method PlayingKeyDown(key: Key)
      modifies this
      ensures Snapshot() == PlayingKey(old(Snapshot()), key)
    {
      if key == Escape {
        screen := screen.(mode := Menu);
      } else if key == Space {
        eggs := eggs + [Egg(duck.x + (if duck.facingRight then 20.0 else -20.0), duck.y + 20.0,
                            if duck.facingRight then 8.0 else -8.0)];
      }
    }
  }
}
