/**
 * The kinematic-body rules shared by the player and the enemies, as pure
 * functions over value snapshots of their state: axis-separated collision
 * resolution against the static solid tiles, and one simulation step of each
 * kind of body. The classes in module Entities are proved to follow these.
 */
module Motion {
  import opened Geometry
  import opened Config
  import opened Wrappers

  /** The speed a newly spawned enemy patrols at. */
  const PatrolSpeed: real := 140.0

  // ---------------------------------------------------------------------------
  // Horizontal resolution
  // ---------------------------------------------------------------------------

  /**
   * How an overlapping block pushes the box: out to the block's left (the box
   * was moving right), out to its right (moving left), or not at all.
   */
  datatype XClamp = ToLeftOf | ToRightOf | NoClamp

  /** The player clamps only when it moves: `> 0` right, `< 0` left. */
  function PlayerXClamp(vx: real): XClamp {
    if vx > 0.0 then ToLeftOf else if vx < 0.0 then ToRightOf else NoClamp
  }

  /** An enemy that is not moving right is pushed out to the right. */
  function EnemyXClamp(vx: real): XClamp {
    if vx > 0.0 then ToLeftOf else ToRightOf
  }

  predicate AnyHit(box: Rect, solids: seq<Rect>) {
    exists i :: 0 <= i < |solids| && Collide(box, solids[i])
  }

  /** The correction one block applies to the current box. */
  function ClampX(box: Rect, block: Rect, mode: XClamp): Rect
  {
    if !Collide(box, block) then box
    else match mode
      case ToLeftOf => box.WithRight(block.Left())
      case ToRightOf => box.WithLeft(block.Right())
      case NoClamp => box
  }

  /** Every block in list order corrects the box as already corrected by the earlier ones. */
  function ResolveX(box: Rect, mode: XClamp, solids: seq<Rect>): (r: Rect)
    ensures r.y == box.y && r.w == box.w && r.h == box.h
    decreases |solids|
  {
    if solids == [] then box
    else ResolveX(ClampX(box, solids[0], mode), mode, solids[1..])
  }

  /** A box that overlaps nothing is left where it is. */
  lemma {:induction false} ResolveXNoHit(box: Rect, mode: XClamp, solids: seq<Rect>)
    requires !AnyHit(box, solids)
    ensures ResolveX(box, mode, solids) == box
    decreases |solids|
  {
    if solids != [] {
      assert !Collide(box, solids[0]);
      assert !AnyHit(box, solids[1..]) by {
        forall i | 0 <= i < |solids[1..]| ensures !Collide(box, solids[1..][i]) {
          assert solids[1..][i] == solids[i + 1];
        }
      }
      ResolveXNoHit(box, mode, solids[1..]);
    }
  }

  /** With zero horizontal velocity the player's box never moves sideways. */
  lemma {:induction false} ResolveXStill(box: Rect, solids: seq<Rect>)
    ensures ResolveX(box, NoClamp, solids) == box
    decreases |solids|
  {
    if solids != [] {
      ResolveXStill(box, solids[1..]);
    }
  }

  lemma AnyHitCons(box: Rect, solids: seq<Rect>)
    requires solids != []
    ensures AnyHit(box, solids) <==> Collide(box, solids[0]) || AnyHit(box, solids[1..])
  {
    if AnyHit(box, solids) && !Collide(box, solids[0]) {
      var i :| 0 <= i < |solids| && Collide(box, solids[i]);
      assert solids[1..][i - 1] == solids[i];
    }
    if AnyHit(box, solids[1..]) {
      var i :| 0 <= i < |solids[1..]| && Collide(box, solids[1..][i]);
      assert solids[i + 1] == solids[1..][i];
    }
  }

  /**
   * Resolution only ever pushes the box back against its direction of
   * travel, and it moves the box at all exactly when the moved box overlaps
   * some solid.
   */
  lemma {:induction false} ResolveXDirection(box: Rect, mode: XClamp, solids: seq<Rect>)
    ensures mode == ToLeftOf ==>
      ResolveX(box, mode, solids).x <= box.x &&
      (ResolveX(box, mode, solids).x < box.x <==> AnyHit(box, solids))
    ensures mode == ToRightOf ==>
      ResolveX(box, mode, solids).x >= box.x &&
      (ResolveX(box, mode, solids).x > box.x <==> AnyHit(box, solids))
    decreases |solids|
  {
    if solids != [] {
      var b0 := ClampX(box, solids[0], mode);
      ResolveXDirection(b0, mode, solids[1..]);
      AnyHitCons(box, solids);
    }
  }

  /**
   * When the moving box hit something, it ends flush against a block: right
   * edge on a block's left edge when moving right, left edge on a block's
   * right edge when moving left.
   */
  lemma {:induction false} ResolveXFlush(box: Rect, mode: XClamp, solids: seq<Rect>)
    requires mode != NoClamp && AnyHit(box, solids)
    ensures exists b :: (b in solids &&
      (mode == ToLeftOf ==> ResolveX(box, mode, solids).Right() == b.Left()) &&
      (mode == ToRightOf ==> ResolveX(box, mode, solids).Left() == b.Right()))
    decreases |solids|
  {
    var b0 := ClampX(box, solids[0], mode);
    var rest := solids[1..];
    var r := ResolveX(box, mode, solids);
    assert r == ResolveX(b0, mode, rest);
    AnyHitCons(box, solids);
    if AnyHit(b0, rest) {
      ResolveXFlush(b0, mode, rest);
      var b :| b in rest &&
        (mode == ToLeftOf ==> r.Right() == b.Left()) &&
        (mode == ToRightOf ==> r.Left() == b.Right());
      assert b in solids;
    } else {
      ResolveXNoHit(b0, mode, rest);
      assert solids[0] in solids;
    }
  }

  // ---------------------------------------------------------------------------
  // Vertical resolution
  // ---------------------------------------------------------------------------

  /** What vertical resolution reads and writes: the box, `velocity.y`, `on_ground`. */
  datatype VState = VState(box: Rect, vy: real, onGround: bool)

  /** The correction one block applies: landing on it, bumping its underside, or nothing. */
  function ClampY(st: VState, block: Rect): VState
  {
    if !Collide(st.box, block) then st
    else if st.vy > 0.0 then VState(st.box.WithBottom(block.Top()), 0.0, true)
    else if st.vy < 0.0 then VState(st.box.WithTop(block.Bottom()), 0.0, st.onGround)
    else st
  }

  function ResolveY(st: VState, solids: seq<Rect>): (r: VState)
    ensures r.box.x == st.box.x && r.box.w == st.box.w && r.box.h == st.box.h
    ensures r.vy == st.vy || r.vy == 0.0
    ensures r.onGround ==> st.onGround || r.vy == 0.0
    decreases |solids|
  {
    if solids == [] then st
    else ResolveY(ClampY(st, solids[0]), solids[1..])
  }

  /** The first block in list order that the box overlaps. */
  function FirstHit(box: Rect, solids: seq<Rect>): (r: Option<Rect>)
    ensures r.Some? ==> r.value in solids && Collide(box, r.value)
    ensures r.None? <==> !AnyHit(box, solids)
    ensures r.Some? ==> exists k :: 0 <= k < |solids| && solids[k] == r.value &&
                                    forall j :: 0 <= j < k ==> !Collide(box, solids[j])
    decreases |solids|
  {
    if solids == [] then None
    else if Collide(box, solids[0]) then Some(solids[0])
    else
      AnyHitCons(box, solids);
      var rest := FirstHit(box, solids[1..]);
      if rest.Some? then
        FirstAfterMiss(box, solids, rest.value);
        rest
      else rest
  }

  /** A first hit among the tail, after a miss at the head, is a first hit of the whole list. */
  lemma FirstAfterMiss(box: Rect, solids: seq<Rect>, b: Rect)
    requires solids != [] && !Collide(box, solids[0])
    requires exists k :: 0 <= k < |solids[1..]| && solids[1..][k] == b &&
                         forall j :: 0 <= j < k ==> !Collide(box, solids[1..][j])
    ensures exists k :: 0 <= k < |solids| && solids[k] == b &&
                        forall j :: 0 <= j < k ==> !Collide(box, solids[j])
  {
    var k :| 0 <= k < |solids[1..]| && solids[1..][k] == b &&
             forall j :: 0 <= j < k ==> !Collide(box, solids[1..][j]);
    forall j | 0 <= j < k + 1
      ensures !Collide(box, solids[j])
    {
      if 0 < j {
        assert solids[j] == solids[1..][j - 1];
      }
    }
    assert solids[k + 1] == b;
  }

  /** Once `velocity.y` is zero, no block changes anything. */
  lemma {:induction false} ResolveYAtRest(st: VState, solids: seq<Rect>)
    requires st.vy == 0.0
    ensures ResolveY(st, solids) == st
    decreases |solids|
  {
    if solids != [] {
      ResolveYAtRest(st, solids[1..]);
    }
  }

  /**
   * Only the first overlapping block in list order acts: its clamp zeroes
   * `velocity.y`, after which later blocks are ignored even if they overlap.
   */
  lemma {:induction false} ResolveYFirstHit(st: VState, solids: seq<Rect>)
    ensures ResolveY(st, solids) ==
      match FirstHit(st.box, solids)
      case None => st
      case Some(b) => ClampY(st, b)
    decreases |solids|
  {
    if solids != [] {
      var c := ClampY(st, solids[0]);
      if Collide(st.box, solids[0]) {
        if st.vy == 0.0 {
          ResolveYAtRest(st, solids[1..]);
        } else {
          ResolveYAtRest(c, solids[1..]);
        }
      } else {
        ResolveYFirstHit(st, solids[1..]);
      }
    }
  }

  // ---------------------------------------------------------------------------
  // Player
  // ---------------------------------------------------------------------------

  datatype PlayerState = PlayerState(
    rect: Rect, vel: Vec, onGround: bool, coyoteTimer: real, jumpRequested: bool)

  /** A player created at `pos`: one tile wide, two tall, at rest, airborne, nothing pending. */
  function SpawnedPlayer(pos: (int, int), tile: int): PlayerState {
    PlayerState(Rect(pos.0, pos.1, tile, 2 * tile), Vec(0.0, 0.0), false, 0.0, false)
  }

  /** The jump condition: grounded, or still inside the coyote window (inclusive). */
  predicate CanJump(s: PlayerState, cfg: Constants) {
    s.onGround || s.coyoteTimer <= cfg.coyoteTime
  }

  /** `_try_jump`: a jump that fires leaves the coyote window closed until the next landing. */
  function JumpStep(s: PlayerState, cfg: Constants): (r: PlayerState)
    ensures !CanJump(r, cfg)
    ensures r.rect == s.rect && r.vel.x == s.vel.x && r.jumpRequested == s.jumpRequested
    ensures CanJump(s, cfg) ==> r.vel.y == -cfg.jumpSpeed && !r.onGround
    ensures !CanJump(s, cfg) ==> r == s
  {
    if CanJump(s, cfg) then
      s.(vel := Vec(s.vel.x, -cfg.jumpSpeed), onGround := false, coyoteTimer := cfg.coyoteTime + 1.0)
    else s
  }

  /** The box after the horizontal phase of a player step. */
  function PlayerAfterX(s: PlayerState, dt: real, solids: seq<Rect>, inputAxis: real, cfg: Constants): Rect {
    var vx := inputAxis * cfg.moveSpeed;
    ResolveX(s.rect.MoveX(Displacement(vx, dt)), PlayerXClamp(vx), solids)
  }

  /** The player's vertical velocity once gravity has been applied. */
  function PlayerFallSpeed(s: PlayerState, dt: real, cfg: Constants): real {
    s.vel.y + cfg.gravity * dt
  }

  /** The box after the vertical move, before it is resolved. */
  function PlayerBeforeY(s: PlayerState, dt: real, solids: seq<Rect>, inputAxis: real, cfg: Constants): Rect {
    PlayerAfterX(s, dt, solids, inputAxis, cfg).MoveY(Displacement(PlayerFallSpeed(s, dt, cfg), dt))
  }

  /** The vertical phase of a player step: resolve with `on_ground` cleared first. */
  function PlayerAfterY(s: PlayerState, dt: real, solids: seq<Rect>, inputAxis: real, cfg: Constants): VState {
    ResolveY(VState(PlayerBeforeY(s, dt, solids, inputAxis, cfg), PlayerFallSpeed(s, dt, cfg), false), solids)
  }

  /** The player after motion, resolution and the coyote timer, before the jump is considered. */
  function PlayerMoved(s: PlayerState, dt: real, solids: seq<Rect>, inputAxis: real, cfg: Constants): PlayerState {
    var v := PlayerAfterY(s, dt, solids, inputAxis, cfg);
    PlayerState(v.box, Vec(inputAxis * cfg.moveSpeed, v.vy), v.onGround,
                if v.onGround then 0.0 else s.coyoteTimer + dt, s.jumpRequested)
  }

  /** A pending jump fires when, after this step's motion, the player may jump. */
  predicate JumpFires(s: PlayerState, dt: real, solids: seq<Rect>, inputAxis: real, cfg: Constants) {
    s.jumpRequested && CanJump(PlayerMoved(s, dt, solids, inputAxis, cfg), cfg)
  }

  /** `Player.update`. */
  function PlayerStep(s: PlayerState, dt: real, solids: seq<Rect>, inputAxis: real, cfg: Constants): (r: PlayerState)
    ensures r.vel.x == inputAxis * cfg.moveSpeed
    ensures r.rect.w == s.rect.w && r.rect.h == s.rect.h
    ensures !r.jumpRequested
    ensures r.onGround ==> r.vel.y == 0.0 && !s.jumpRequested
    ensures !JumpFires(s, dt, solids, inputAxis, cfg) ==>
              r.coyoteTimer == (if r.onGround then 0.0 else s.coyoteTimer + dt)
    ensures JumpFires(s, dt, solids, inputAxis, cfg) ==>
              r.vel.y == -cfg.jumpSpeed && !r.onGround && r.coyoteTimer == cfg.coyoteTime + 1.0
  {
    var m := PlayerMoved(s, dt, solids, inputAxis, cfg);
    var j := if m.jumpRequested then JumpStep(m, cfg) else m;
    j.(jumpRequested := false)
  }

  /**
   * Grounding: a player that falls into a solid with no jump pending lands on
   * the first such solid in list order, with `on_ground` set, `velocity.y`
   * zero and the coyote timer pinned at zero.
   */
  lemma PlayerLands(s: PlayerState, dt: real, solids: seq<Rect>, inputAxis: real, cfg: Constants)
    requires !s.jumpRequested
    requires PlayerFallSpeed(s, dt, cfg) > 0.0
    requires AnyHit(PlayerBeforeY(s, dt, solids, inputAxis, cfg), solids)
    ensures var r := PlayerStep(s, dt, solids, inputAxis, cfg);
            r.onGround && r.vel.y == 0.0 && r.coyoteTimer == 0.0 &&
            r.rect.Bottom() == FirstHit(PlayerBeforeY(s, dt, solids, inputAxis, cfg), solids).value.Top()
  {
    var st := VState(PlayerBeforeY(s, dt, solids, inputAxis, cfg), PlayerFallSpeed(s, dt, cfg), false);
    ResolveYFirstHit(st, solids);
  }

  /**
   * With no solid in the way of the vertical move and no jump pending, the
   * player stays airborne, keeps the velocity gravity gave it and its
   * coyote timer runs on.
   */
  lemma PlayerFallsFreely(s: PlayerState, dt: real, solids: seq<Rect>, inputAxis: real, cfg: Constants)
    requires !s.jumpRequested
    requires !AnyHit(PlayerBeforeY(s, dt, solids, inputAxis, cfg), solids)
    ensures var r := PlayerStep(s, dt, solids, inputAxis, cfg);
            !r.onGround && r.vel.y == PlayerFallSpeed(s, dt, cfg) &&
            r.rect == PlayerBeforeY(s, dt, solids, inputAxis, cfg) &&
            r.coyoteTimer == s.coyoteTimer + dt
  {
    var st := VState(PlayerBeforeY(s, dt, solids, inputAxis, cfg), PlayerFallSpeed(s, dt, cfg), false);
    ResolveYFirstHit(st, solids);
  }

  // ---------------------------------------------------------------------------
  // Enemy
  // ---------------------------------------------------------------------------

  datatype EnemyState = EnemyState(rect: Rect, vel: Vec)

  /** An enemy created at `pos`: one tile square, patrolling to the right. */
  function SpawnedEnemy(pos: (int, int), tile: int): EnemyState {
    EnemyState(Rect(pos.0, pos.1, tile, tile), Vec(PatrolSpeed, 0.0))
  }

  /** The enemy's box after the horizontal move, before it is resolved. */
  function EnemyBeforeX(s: EnemyState, dt: real): Rect {
    s.rect.MoveX(Displacement(s.vel.x, dt))
  }

  /** The enemy's box after the horizontal phase. */
  function EnemyAfterX(s: EnemyState, dt: real, solids: seq<Rect>): Rect {
    ResolveX(EnemyBeforeX(s, dt), EnemyXClamp(s.vel.x), solids)
  }

  /** The patrol velocity after the horizontal phase: reversed when the moved box hit something. */
  function EnemyTurned(s: EnemyState, dt: real, solids: seq<Rect>): real {
    if AnyHit(EnemyBeforeX(s, dt), solids) then -s.vel.x else s.vel.x
  }

  /** The vertical phase of an enemy step, with the grounded bit the enemy does not keep. */
  function EnemyAfterY(s: EnemyState, dt: real, solids: seq<Rect>, cfg: Constants): VState {
    var vy := s.vel.y + cfg.gravity * dt;
    ResolveY(VState(EnemyAfterX(s, dt, solids).MoveY(Displacement(vy, dt)), vy, false), solids)
  }

  /**
   * `Enemy.update`: the patrol direction reverses exactly when the moved box
   * overlapped some solid; speed and box size never change.
   */
  function EnemyStep(s: EnemyState, dt: real, solids: seq<Rect>, cfg: Constants): (r: EnemyState)
    ensures r.rect.w == s.rect.w && r.rect.h == s.rect.h
    ensures r.vel.x == s.vel.x || r.vel.x == -s.vel.x
    ensures s.vel.x != 0.0 ==> (r.vel.x == -s.vel.x <==> AnyHit(EnemyBeforeX(s, dt), solids))
  {
    var v := EnemyAfterY(s, dt, solids, cfg);
    EnemyState(v.box, Vec(EnemyTurned(s, dt, solids), v.vy))
  }

  /** An enemy followed through a sequence of frame times. */
  function EnemyRun(s: EnemyState, dts: seq<real>, solids: seq<Rect>, cfg: Constants): EnemyState
    decreases |dts|
  {
    if dts == [] then s else EnemyRun(EnemyStep(s, dts[0], solids, cfg), dts[1..], solids, cfg)
  }

  /** However long it patrols, an enemy keeps its speed and its box size. */
  lemma {:induction false} EnemyRunKeepsPatrol(s: EnemyState, dts: seq<real>, solids: seq<Rect>, cfg: Constants)
    ensures var r := EnemyRun(s, dts, solids, cfg);
            (r.vel.x == s.vel.x || r.vel.x == -s.vel.x) &&
            r.rect.w == s.rect.w && r.rect.h == s.rect.h
    decreases |dts|
  {
    if dts != [] {
      EnemyRunKeepsPatrol(EnemyStep(s, dts[0], solids, cfg), dts[1..], solids, cfg);
    }
  }

  /**
   * A patrolling enemy that runs into a wall turns round standing flush
   * against some solid: against a block's left edge when it was moving
   * right, against a block's right edge when it was moving left.
   */
  lemma EnemyTurnsAtWall(s: EnemyState, dt: real, solids: seq<Rect>)
    requires AnyHit(EnemyBeforeX(s, dt), solids)
    ensures var bx := ResolveX(EnemyBeforeX(s, dt), EnemyXClamp(s.vel.x), solids);
            exists b :: (b in solids &&
              (s.vel.x > 0.0 ==> bx.Right() == b.Left()) &&
              (s.vel.x <= 0.0 ==> bx.Left() == b.Right()))
  {
    ResolveXFlush(EnemyBeforeX(s, dt), EnemyXClamp(s.vel.x), solids);
  }
}
