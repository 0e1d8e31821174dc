/**
 * The game entities: the player and the enemies as objects whose fields
 * every update changes in place, each update proved to follow the
 * corresponding step function of module Motion; collectibles and the goal as
 * plain records.
 */
module Entities {
  import opened Geometry
  import opened Config
  import opened Motion

  /** A pickup worth `value` points; `collected` flips once. */
  datatype Collectible = Collectible(rect: Rect, value: int, collected: bool)

  datatype Goal = Goal(rect: Rect)

  class Player {
    var rect: Rect
    var velocity: Vec
    var onGround: bool
    var coyoteTimer: real
    var jumpRequested: bool

    function State(): PlayerState
      reads this
    {
      PlayerState(rect, velocity, onGround, coyoteTimer, jumpRequested)
    }

    constructor (position: (int, int), cfg: Constants)
      ensures State() == SpawnedPlayer(position, cfg.tileSize)
      ensures rect == Rect(position.0, position.1, cfg.tileSize, 2 * cfg.tileSize)
      ensures velocity == Vec(0.0, 0.0) && !onGround && coyoteTimer == 0.0 && !jumpRequested
    {
      rect := Rect(position.0, position.1, cfg.tileSize, cfg.tileSize * 2);
      velocity := Vec(0.0, 0.0);
      onGround := false;
      coyoteTimer := 0.0;
      jumpRequested := false;
    }

    /** Only raises the pending-jump flag; asking twice is the same as asking once. */
    method RequestJump()
      modifies this
      ensures State() == old(State()).(jumpRequested := true)
    {
      jumpRequested := true;
    }

    method Update(dt: real, solids: seq<Rect>, inputAxis: real, cfg: Constants)
      modifies this
      ensures State() == PlayerStep(old(State()), dt, solids, inputAxis, cfg)
    {
      ghost var s0 := State();
      velocity := velocity.(x := inputAxis * cfg.moveSpeed);
      velocity := velocity.(y := velocity.y + cfg.gravity * dt);
      assert velocity.y == PlayerFallSpeed(s0, dt, cfg);

      rect := rect.MoveX(Displacement(velocity.x, dt));
      ResolveHorizontal(solids);
      assert rect == PlayerAfterX(s0, dt, solids, inputAxis, cfg);

      rect := rect.MoveY(Displacement(velocity.y, dt));
      assert rect == PlayerBeforeY(s0, dt, solids, inputAxis, cfg);
      ResolveVertical(solids);
      assert VState(rect, velocity.y, onGround) == PlayerAfterY(s0, dt, solids, inputAxis, cfg);

      if onGround {
        coyoteTimer := 0.0;
      } else {
        coyoteTimer := coyoteTimer + dt;
      }
      assert State() == PlayerMoved(s0, dt, solids, inputAxis, cfg);

      if jumpRequested {
        TryJump(cfg);
      }
      jumpRequested := false;
    }

    method TryJump(cfg: Constants)
      modifies this
      ensures State() == JumpStep(old(State()), cfg)
    {
      if onGround || coyoteTimer <= cfg.coyoteTime {
        velocity := velocity.(y := -cfg.jumpSpeed);
        onGround := false;
        coyoteTimer := cfg.coyoteTime + 1.0;
      }
    }

    /** Pushes the box out of every overlapping block in list order; `velocity.x` is kept. */
    method ResolveHorizontal(solids: seq<Rect>)
      modifies this
      ensures State() == old(State()).(rect := ResolveX(old(rect), PlayerXClamp(velocity.x), solids))
    {
      for i := 0 to |solids|
        invariant ResolveX(rect, PlayerXClamp(velocity.x), solids[i..]) ==
                  ResolveX(old(rect), PlayerXClamp(velocity.x), solids)
        invariant velocity == old(velocity) && onGround == old(onGround)
        invariant coyoteTimer == old(coyoteTimer) && jumpRequested == old(jumpRequested)
      {
        var block := solids[i];
        assert solids[i..][1..] == solids[i + 1..];
        if Collide(rect, block) {
          if velocity.x > 0.0 {
            rect := rect.WithRight(block.Left());
          } else if velocity.x < 0.0 {
            rect := rect.WithLeft(block.Right());
          }
        }
      }
      assert solids[|solids|..] == [];
    }

    /** Clears `on_ground`, then lands on or bumps against overlapping blocks in list order. */
    method ResolveVertical(solids: seq<Rect>)
      modifies this
      ensures var v := ResolveY(VState(old(rect), old(velocity.y), false), solids);
              State() == old(State()).(rect := v.box, vel := Vec(old(velocity.x), v.vy), onGround := v.onGround)
    {
      onGround := false;
      for i := 0 to |solids|
        invariant ResolveY(VState(rect, velocity.y, onGround), solids[i..]) ==
                  ResolveY(VState(old(rect), old(velocity.y), false), solids)
        invariant velocity.x == old(velocity.x)
        invariant coyoteTimer == old(coyoteTimer) && jumpRequested == old(jumpRequested)
      {
        var block := solids[i];
        assert solids[i..][1..] == solids[i + 1..];
        if Collide(rect, block) {
          if velocity.y > 0.0 {
            rect := rect.WithBottom(block.Top());
            velocity := velocity.(y := 0.0);
            onGround := true;
          } else if velocity.y < 0.0 {
            rect := rect.WithTop(block.Bottom());
            velocity := velocity.(y := 0.0);
          }
        }
      }
      assert solids[|solids|..] == [];
    }
  }

  class Enemy {
    var rect: Rect
    var velocity: Vec

    function State(): EnemyState
      reads this
    {
      EnemyState(rect, velocity)
    }

    constructor (position: (int, int), cfg: Constants)
      ensures State() == SpawnedEnemy(position, cfg.tileSize)
    {
      rect := Rect(position.0, position.1, cfg.tileSize, cfg.tileSize);
      velocity := Vec(PatrolSpeed, 0.0);
    }

    /**
     * The program writes the two resolution loops inline in `update`; here
     * they are the two methods below, with the same statements.
     */
    method Update(dt: real, solids: seq<Rect>, cfg: Constants)
      modifies this
      ensures State() == EnemyStep(old(State()), dt, solids, cfg)
    {
      ghost var s0 := State();
      velocity := velocity.(y := velocity.y + cfg.gravity * dt);

      rect := rect.MoveX(Displacement(velocity.x, dt));
      assert rect == EnemyBeforeX(s0, dt);
      var collided := ResolveHorizontal(solids);
      assert rect == EnemyAfterX(s0, dt, solids);
      if collided {
        velocity := velocity.(x := velocity.x * -1.0);
      }
      assert velocity.x == EnemyTurned(s0, dt, solids);

      rect := rect.MoveY(Displacement(velocity.y, dt));
      ghost var start := VState(rect, velocity.y, false);
      assert ResolveY(start, solids) == EnemyAfterY(s0, dt, solids, cfg);
      ghost var grounded := ResolveVertical(solids);
      assert VState(rect, velocity.y, grounded) == ResolveY(start, solids);
    }

    /** Pushes the box out of every overlapping block in list order and reports whether any overlapped. */
    method ResolveHorizontal(solids: seq<Rect>) returns (collided: bool)
      modifies this
      ensures rect == ResolveX(old(rect), EnemyXClamp(velocity.x), solids)
      ensures collided == AnyHit(old(rect), solids)
      ensures velocity == old(velocity)
    {
      collided := false;
      for i := 0 to |solids|
        invariant ResolveX(rect, EnemyXClamp(velocity.x), solids[i..]) ==
                  ResolveX(old(rect), EnemyXClamp(velocity.x), solids)
        invariant collided == AnyHit(old(rect), solids[..i])
        invariant !collided ==> rect == old(rect)
        invariant velocity == old(velocity)
      {
        var block := solids[i];
        assert solids[i..][1..] == solids[i + 1..];
        AnyHitCons(old(rect), solids[..i + 1]);
        if Collide(rect, block) {
          collided := true;
          if velocity.x > 0.0 {
            rect := rect.WithRight(block.Left());
          } else {
            rect := rect.WithLeft(block.Right());
          }
        }
      }
      assert solids[|solids|..] == [] && solids[..|solids|] == solids;
    }

    /**
     * Lands on or bumps against overlapping blocks in list order; `grounded`
     * is the on-ground bit of the shared resolution, which an enemy does not keep.
     */
    method ResolveVertical(solids: seq<Rect>) returns (ghost grounded: bool)
      modifies this
      ensures VState(rect, velocity.y, grounded) == ResolveY(VState(old(rect), old(velocity.y), false), solids)
      ensures velocity.x == old(velocity.x)
    {
      grounded := false;
      for i := 0 to |solids|
        invariant ResolveY(VState(rect, velocity.y, grounded), solids[i..]) ==
                  ResolveY(VState(old(rect), old(velocity.y), false), solids)
        invariant velocity.x == old(velocity.x)
      {
        var block := solids[i];
        assert solids[i..][1..] == solids[i + 1..];
        if Collide(rect, block) {
          if velocity.y > 0.0 {
            rect := rect.WithBottom(block.Top());
            velocity := velocity.(y := 0.0);
            grounded := true;
          } else if velocity.y < 0.0 {
            rect := rect.WithTop(block.Bottom());
            velocity := velocity.(y := 0.0);
          }
        }
      }
      assert solids[|solids|..] == [];
    }
  }
}
