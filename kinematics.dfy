/** The player's movement during one tick of play: horizontal input, the
    double jump, the push-out passes against the level's blocks and the
    camera that follows the player. */
module Kinematics {
  import opened Geometry

  /** The player's collision box is 47 by 60, anchored at (playerX, playerY). */
  const PLAYER_WIDTH: real := 47.0
  const PLAYER_HEIGHT: real := 60.0

  const JUMP_POWER: real := -15.0
  const BOOST_JUMP_POWER: real := -20.0
  /** Milliseconds that must separate two jumps, measured from a
      last-jump time that every tick resets to 0. */
  const JUMP_COOLDOWN: real := 200.0
  /** Jumps available after touching ground: a double jump. */
  const MAX_JUMPS: int := 2

  function PlayerRect(x: real, y: real): Rect
  {
    Rect(x, y, PLAYER_WIDTH, PLAYER_HEIGHT)
  }

  /** Horizontal displacement of one tick: right or left alone moves by
      `speed`; both held together cancel, neither leaves the player still. */
  function MoveX(right: bool, left: bool, speed: real): (dx: real)
    ensures right && left ==> dx == 0.0
    ensures !right && !left ==> dx == 0.0
    ensures right && !left ==> dx == speed
    ensures left && !right ==> dx == -speed
  {
    var dx := if right && !left then speed else 0.0;
    if left && !right then dx - speed else dx
  }

  /** What the jump step reads and writes: the vertical velocity, the jump
      budget and the latch of the on-screen jump button. */
  datatype JumpState = JumpState(velocity: real, jumpsRemaining: int, jumpButton: bool)

  /** The jump of one tick, `now` being the clock in milliseconds. The
      last-jump time is a local reset to 0 on every tick, so the cooldown
      test only compares `now` with 200. */
  function Jump(js: JumpState, upKey: bool, boostActive: bool, now: real): (r: JumpState)
    ensures r != js ==> r.velocity == (if boostActive then BOOST_JUMP_POWER else JUMP_POWER) &&
                        r.jumpsRemaining == js.jumpsRemaining - 1 && !r.jumpButton
    ensures now > JUMP_COOLDOWN ==>
              (r != js <==> (upKey || js.jumpButton) && js.jumpsRemaining > 0 && js.velocity >= 0.0)
    ensures 0 <= js.jumpsRemaining <= MAX_JUMPS ==> 0 <= r.jumpsRemaining <= MAX_JUMPS
  {
    var lastJumpTime := 0.0;
    if (upKey || js.jumpButton) && js.jumpsRemaining > 0 && now - lastJumpTime > JUMP_COOLDOWN then
      if js.velocity >= 0.0 then
        JumpState(if boostActive then BOOST_JUMP_POWER else JUMP_POWER, js.jumpsRemaining - 1, false)
      else js
    else js
  }

  /** The same step without any cooldown test. */
  function JumpIgnoringCooldown(js: JumpState, upKey: bool, boostActive: bool): JumpState
  {
    if (upKey || js.jumpButton) && js.jumpsRemaining > 0 && js.velocity >= 0.0 then
      JumpState(if boostActive then BOOST_JUMP_POWER else JUMP_POWER, js.jumpsRemaining - 1, false)
    else js
  }

  /** The cooldown is inert: with any clock reading past 200 ms (every real
      wall-clock time) the jump step is the one without a cooldown, whenever
      the previous jump happened. */
  lemma JumpCooldownInert(js: JumpState, upKey: bool, boostActive: bool, now: real)
    requires now > JUMP_COOLDOWN
    ensures Jump(js, upKey, boostActive, now) == JumpIgnoringCooldown(js, upKey, boostActive)
  {
  }

  // ----- horizontal push-out -----

  /** Where a horizontal push against `b` leaves the player's left edge. */
  function NearEdgeX(b: Rect, dx: real): real
  {
    if dx > 0.0 then b.x - PLAYER_WIDTH else b.x + b.width
  }

  /** One block of the horizontal pass: a box that overlaps `b` is moved
      flush against the side it came from; with no motion it stays. */
  function PushOutX(x: real, y: real, dx: real, b: Rect): real
  {
    if IsColliding(PlayerRect(x, y), b) then
      if dx > 0.0 then b.x - PLAYER_WIDTH
      else if dx < 0.0 then b.x + b.width
      else x
    else x
  }

  /** The horizontal pass over the blocks in order, starting from the
      tentatively moved x; each push overwrites the previous one. */
  function ResolveX(x: real, y: real, dx: real, blocks: seq<Rect>): real
    decreases |blocks|
  {
    if |blocks| == 0 then x
    else PushOutX(ResolveX(x, y, dx, blocks[..|blocks| - 1]), y, dx, blocks[|blocks| - 1])
  }

  /** What the horizontal pass guarantees: without motion nothing moves;
      with motion the player is only ever pushed back against its
      direction, is pushed back at all exactly when the tentatively moved
      box overlaps some block, and ends either where it moved to or flush
      against the near edge of a block. */
  lemma {:induction false} HorizontalPushOut(x: real, y: real, dx: real, blocks: seq<Rect>)
    ensures dx == 0.0 ==> ResolveX(x, y, dx, blocks) == x
    ensures dx > 0.0 ==> ResolveX(x, y, dx, blocks) <= x
    ensures dx > 0.0 ==>
              (ResolveX(x, y, dx, blocks) < x <==> exists b :: b in blocks && IsColliding(PlayerRect(x, y), b))
    ensures dx < 0.0 ==> ResolveX(x, y, dx, blocks) >= x
    ensures dx < 0.0 ==>
              (ResolveX(x, y, dx, blocks) > x <==> exists b :: b in blocks && IsColliding(PlayerRect(x, y), b))
    ensures ResolveX(x, y, dx, blocks) == x ||
            exists b :: b in blocks && ResolveX(x, y, dx, blocks) == NearEdgeX(b, dx)
    decreases |blocks|
  {
    if |blocks| > 0 {
      var n := |blocks| - 1;
      var front, b := blocks[..n], blocks[n];
      assert blocks == front + [b];
      assert forall c :: c in front ==> c in blocks;
      HorizontalPushOut(x, y, dx, front);
      var r0 := ResolveX(x, y, dx, front);
      var r := ResolveX(x, y, dx, blocks);
      assert r == PushOutX(r0, y, dx, b);
      if dx != 0.0 && IsColliding(PlayerRect(r0, y), b) {
        assert r == NearEdgeX(b, dx) && b in blocks;
        if r0 == x {
          assert IsColliding(PlayerRect(x, y), b);
        }
      } else {
        assert r == r0;
        if dx != 0.0 && r0 != x {
          var c :| c in front && r0 == NearEdgeX(c, dx);
          assert c in blocks;
        }
      }
    }
  }

  /** The horizontal pass of the tick, as a loop over the blocks. */
  method ResolveHorizontal(x: real, y: real, dx: real, blocks: seq<Rect>) returns (rx: real)
    ensures rx == ResolveX(x, y, dx, blocks)
  {
    rx := x;
    for k := 0 to |blocks|
      invariant rx == ResolveX(x, y, dx, blocks[..k])
    {
      var block := blocks[k];
      if IsColliding(PlayerRect(rx, y), block) {
        if dx > 0.0 {
          rx := block.x - PLAYER_WIDTH;
        } else if dx < 0.0 {
          rx := block.x + block.width;
        }
      }
      assert blocks[..k + 1][..k] == blocks[..k];
    }
    assert blocks[..|blocks|] == blocks;
  }

  // ----- vertical push-out -----

  /** What the vertical pass reads and writes. */
  datatype Fall = Fall(y: real, velocity: real, jumpsRemaining: int, onGround: bool)

  /** One block of the vertical pass: moving down onto a block lands on
      its top (velocity 0, jump budget refilled); moving up into a block
      stops under its underside (velocity 0). */
  function PushOutY(f: Fall, x: real, dy: real, b: Rect): Fall
  {
    if IsColliding(PlayerRect(x, f.y), b) then
      if dy > 0.0 then Fall(b.y - PLAYER_HEIGHT, 0.0, MAX_JUMPS, true)
      else if dy < 0.0 then Fall(b.y + b.height, 0.0, f.jumpsRemaining, f.onGround)
      else f
    else f
  }

  /** The vertical pass over the blocks in order, from the tentatively
      moved box. */
  function ResolveY(f: Fall, x: real, dy: real, blocks: seq<Rect>): Fall
    decreases |blocks|
  {
    if |blocks| == 0 then f
    else PushOutY(ResolveY(f, x, dy, blocks[..|blocks| - 1]), x, dy, blocks[|blocks| - 1])
  }

  /** Landing: moving down, the player lands exactly when the moved box
      overlaps some block; a landing leaves velocity 0, the jump budget at
      exactly 2 and the player's bottom on the top of a block; the pass
      never moves the player further down. */
  lemma {:induction false} Landing(f: Fall, x: real, dy: real, blocks: seq<Rect>)
    requires dy > 0.0 && !f.onGround
    ensures var r := ResolveY(f, x, dy, blocks);
            (r.onGround <==> exists b :: b in blocks && IsColliding(PlayerRect(x, f.y), b)) &&
            (r.onGround ==> r.velocity == 0.0 && r.jumpsRemaining == MAX_JUMPS &&
                            exists b :: b in blocks && r.y + PLAYER_HEIGHT == b.y) &&
            (!r.onGround ==> r == f) &&
            r.y <= f.y
    decreases |blocks|
  {
    if |blocks| > 0 {
      var n := |blocks| - 1;
      var front, b := blocks[..n], blocks[n];
      assert blocks == front + [b];
      Landing(f, x, dy, front);
      var r0 := ResolveY(f, x, dy, front);
      if r0.onGround {
        var c :| c in front && r0.y + PLAYER_HEIGHT == c.y;
      }
    }
  }

  /** Bumping a ceiling: moving up, the jump budget and ground flag are
      never touched, the player is only ever pushed down, is pushed at all
      exactly when the moved box overlaps some block, and then has velocity
      0 and its top at the underside of a block. */
  lemma {:induction false} Bump(f: Fall, x: real, dy: real, blocks: seq<Rect>)
    requires dy < 0.0
    ensures var r := ResolveY(f, x, dy, blocks);
            r.jumpsRemaining == f.jumpsRemaining && r.onGround == f.onGround && r.y >= f.y &&
            (r.y > f.y <==> exists b :: b in blocks && IsColliding(PlayerRect(x, f.y), b)) &&
            (r.y > f.y ==> r.velocity == 0.0 && exists b :: b in blocks && r.y == b.y + b.height) &&
            (r.y == f.y ==> r == f)
    decreases |blocks|
  {
    if |blocks| > 0 {
      var n := |blocks| - 1;
      var front, b := blocks[..n], blocks[n];
      assert blocks == front + [b];
      Bump(f, x, dy, front);
      var r0 := ResolveY(f, x, dy, front);
      if r0.y > f.y {
        var c :| c in front && r0.y == c.y + c.height;
      }
    }
  }

  /** Whatever the direction, the vertical pass either leaves the jump
      budget alone or refills it to exactly 2. */
  lemma {:induction false} FallRefillsBudget(f: Fall, x: real, dy: real, blocks: seq<Rect>)
    ensures var r := ResolveY(f, x, dy, blocks);
            r.jumpsRemaining == f.jumpsRemaining || r.jumpsRemaining == MAX_JUMPS
    decreases |blocks|
  {
    if |blocks| > 0 {
      FallRefillsBudget(f, x, dy, blocks[..|blocks| - 1]);
    }
  }

  /** The vertical pass of the tick, as a loop over the blocks. */
  method ResolveVertical(f: Fall, x: real, dy: real, blocks: seq<Rect>) returns (r: Fall)
    ensures r == ResolveY(f, x, dy, blocks)
  {
    var y, velocity, jumpsRemaining, onGround := f.y, f.velocity, f.jumpsRemaining, f.onGround;
    for k := 0 to |blocks|
      invariant Fall(y, velocity, jumpsRemaining, onGround) == ResolveY(f, x, dy, blocks[..k])
    {
      var block := blocks[k];
      if IsColliding(PlayerRect(x, y), block) {
        if dy > 0.0 {
          y := block.y - PLAYER_HEIGHT;
          velocity := 0.0;
          onGround := true;
          jumpsRemaining := MAX_JUMPS;
        } else if dy < 0.0 {
          y := block.y + block.height;
          velocity := 0.0;
        }
      }
      assert blocks[..k + 1][..k] == blocks[..k];
    }
    assert blocks[..|blocks|] == blocks;
    r := Fall(y, velocity, jumpsRemaining, onGround);
  }

  // ----- camera -----

  /** The largest camera offset for a level `cols` tiles wide. */
  function MaxCameraX(cols: nat): real
  {
    Max(0.0, (cols * TILE_SIZE) as real - WIDTH)
  }

  /** The camera keeps the player centred, clamped to the level's extent. */
  function CameraX(playerX: real, cols: nat): (c: real)
    ensures 0.0 <= c <= MaxCameraX(cols)
    ensures playerX - WIDTH / 2.0 <= 0.0 ==> c == 0.0
    ensures 0.0 <= playerX - WIDTH / 2.0 <= MaxCameraX(cols) ==> c == playerX - WIDTH / 2.0
    ensures playerX - WIDTH / 2.0 >= MaxCameraX(cols) ==> c == MaxCameraX(cols)
  {
    Min(Max(0.0, playerX - WIDTH / 2.0), MaxCameraX(cols))
  }

  /** A player inside the level is always inside the view. */
  lemma PlayerInView(playerX: real, cols: nat)
    requires 0.0 <= playerX <= (cols * TILE_SIZE) as real
    ensures 0.0 <= playerX - CameraX(playerX, cols) <= WIDTH
  {
  }
}
