/**
 * The per-frame rules of the game loop: advance the bodies unless the level
 * is complete, collect pickups, let the first touching enemy kill the player,
 * detect the goal, and place the camera. `FrameStep` states a frame on value
 * snapshots; class `Game` holds the loop's mutable state and is proved to
 * follow it.
 */
module GameLoop {
  import opened Geometry
  import opened Config
  import opened Motion
  import opened Entities
  import opened Level

  /** The dynamic state of a session, as a value. */
  datatype World = World(
    player: PlayerState,
    enemies: seq<EnemyState>,
    collectibles: seq<Collectible>,
    score: int,
    deaths: nat,
    complete: bool)

  /** The parts of a loaded level that no frame changes. */
  datatype Stage = Stage(solids: seq<Rect>, goal: Goal, playerSpawn: (int, int), sizePx: (int, int))

  function EnemySteps(es: seq<EnemyState>, dt: real, solids: seq<Rect>, cfg: Constants): seq<EnemyState>
  {
    seq(|es|, i requires 0 <= i < |es| => EnemyStep(es[i], dt, solids, cfg))
  }

  /** Bodies move only while the level is not complete. */
  function Advance(w: World, st: Stage, dt: real, inputAxis: real, cfg: Constants): World {
    if w.complete then w
    else w.(player := PlayerStep(w.player, dt, st.solids, inputAxis, cfg),
            enemies := EnemySteps(w.enemies, dt, st.solids, cfg))
  }

  predicate Grabs(box: Rect, c: Collectible) {
    !c.collected && Collide(box, c.rect)
  }

  function PickedUp(box: Rect, c: Collectible): Collectible {
    if Grabs(box, c) then c.(collected := true) else c
  }

  function Pickups(box: Rect, cs: seq<Collectible>): seq<Collectible>
  {
    seq(|cs|, i requires 0 <= i < |cs| => PickedUp(box, cs[i]))
  }

  /** The points the pickups of one frame add, in list order. */
  function Gain(box: Rect, cs: seq<Collectible>): int
    decreases |cs|
  {
    if cs == [] then 0
    else Gain(box, cs[..|cs| - 1]) + (if Grabs(box, Last(cs)) then Last(cs).value else 0)
  }

  /** The total value of the collected pickups. */
  function CollectedValue(cs: seq<Collectible>): int
    decreases |cs|
  {
    if cs == [] then 0
    else CollectedValue(cs[..|cs| - 1]) + (if Last(cs).collected then Last(cs).value else 0)
  }

  function Collect(w: World): World {
    w.(collectibles := Pickups(w.player.rect, w.collectibles),
       score := w.score + Gain(w.player.rect, w.collectibles))
  }

  predicate Contact(box: Rect, es: seq<EnemyState>) {
    exists i :: 0 <= i < |es| && Collide(box, es[i].rect)
  }

  /** Touching any enemy costs a life and puts a fresh player at the spawn point. */
  function Die(w: World, st: Stage, cfg: Constants): World {
    if Contact(w.player.rect, w.enemies)
    then w.(deaths := w.deaths + 1, player := SpawnedPlayer(st.playerSpawn, cfg.tileSize))
    else w
  }

  function Finish(w: World, st: Stage): World {
    if Collide(w.player.rect, st.goal.rect) then w.(complete := true) else w
  }

  /** One frame of the loop, after input has been read. */
  function FrameStep(w: World, st: Stage, dt: real, inputAxis: real, cfg: Constants): World {
    Finish(Die(Collect(Advance(w, st, dt, inputAxis, cfg)), st, cfg), st)
  }

  /** The camera offset along one axis: centred on the player, kept inside the level. */
  function CameraAxis(center: int, screen: int, size: int): (c: int)
    requires 0 < screen
    ensures 0 <= c
    ensures screen <= size ==> c <= size - screen
    ensures 0 <= center - screen / 2 <= size - screen ==> c == center - screen / 2
    ensures c == 0 || c == size - screen || c == center - screen / 2
    ensures center - screen / 2 < 0 || size < screen ==> c == 0
    ensures 0 <= size - screen < center - screen / 2 ==> c == size - screen
  {
    var want := center - screen / 2;
    var limit := size - screen;
    var inner := if want < limit then want else limit;
    if 0 < inner then inner else 0
  }

  function Camera(box: Rect, sizePx: (int, int), cfg: Constants): (int, int)
    requires cfg.Valid()
  {
    (CameraAxis(box.CenterX(), cfg.screenWidth, sizePx.0),
     CameraAxis(box.CenterY(), cfg.screenHeight, sizePx.1))
  }

  // ---------------------------------------------------------------------------
  // Properties of a frame
  // ---------------------------------------------------------------------------

  lemma {:induction false} GainCounted(box: Rect, cs: seq<Collectible>)
    ensures CollectedValue(Pickups(box, cs)) == CollectedValue(cs) + Gain(box, cs)
    decreases |cs|
  {
    if cs != [] {
      var n := |cs| - 1;
      GainCounted(box, cs[..n]);
      assert Pickups(box, cs)[..n] == Pickups(box, cs[..n]);
    }
  }

  /** The points of one more pickup. */
  lemma GainOneMore(box: Rect, cs: seq<Collectible>, i: nat)
    requires i < |cs|
    ensures Gain(box, cs[..i + 1]) == Gain(box, cs[..i]) + (if Grabs(box, cs[i]) then cs[i].value else 0)
  {
    assert cs[..i + 1][..i] == cs[..i];
  }

  /** The score is always the value of the collected pickups; every frame keeps it so. */
  lemma ScoreMatchesCollected(w: World, st: Stage, dt: real, inputAxis: real, cfg: Constants)
    requires w.score == CollectedValue(w.collectibles)
    ensures var r := FrameStep(w, st, dt, inputAxis, cfg);
      r.score == CollectedValue(r.collectibles)
  {
    var a := Advance(w, st, dt, inputAxis, cfg);
    GainCounted(a.player.rect, a.collectibles);
  }

  /**
   * Pickups keep their place and worth and are never un-collected; one
   * becomes collected exactly when it was not and the (possibly advanced)
   * player overlaps it, so overlapping for many frames scores once.
   */
  lemma PickupsOnce(w: World, st: Stage, dt: real, inputAxis: real, cfg: Constants)
    ensures var r := FrameStep(w, st, dt, inputAxis, cfg);
      var box := Advance(w, st, dt, inputAxis, cfg).player.rect;
      |r.collectibles| == |w.collectibles| &&
      forall i :: 0 <= i < |w.collectibles| ==>
        r.collectibles[i].rect == w.collectibles[i].rect &&
        r.collectibles[i].value == w.collectibles[i].value &&
        (w.collectibles[i].collected ==> r.collectibles[i].collected) &&
        (!w.collectibles[i].collected ==> (r.collectibles[i].collected <==> Collide(box, w.collectibles[i].rect)))
  {
    var a := Advance(w, st, dt, inputAxis, cfg);
    assert FrameStep(w, st, dt, inputAxis, cfg).collectibles == Pickups(a.player.rect, w.collectibles);
  }

  /**
   * At most one death per frame: the count goes up by one exactly when the
   * moved player touches some moved enemy, and then the player starts over
   * at the spawn point.
   */
  lemma OneDeathPerFrame(w: World, st: Stage, dt: real, inputAxis: real, cfg: Constants)
    ensures var r := FrameStep(w, st, dt, inputAxis, cfg);
      var a := Advance(w, st, dt, inputAxis, cfg);
      (r.deaths == w.deaths + 1 <==> Contact(a.player.rect, a.enemies)) &&
      (r.deaths == w.deaths || r.deaths == w.deaths + 1) &&
      (r.deaths == w.deaths + 1 ==> r.player == SpawnedPlayer(st.playerSpawn, cfg.tileSize)) &&
      (r.deaths == w.deaths ==> r.player == a.player)
  {}

  /** Once complete, the level stays complete; it becomes complete when the player ends the frame on the goal. */
  lemma GoalSticks(w: World, st: Stage, dt: real, inputAxis: real, cfg: Constants)
    ensures var r := FrameStep(w, st, dt, inputAxis, cfg);
      (w.complete ==> r.complete) &&
      (r.complete <==> w.complete || Collide(r.player.rect, st.goal.rect))
  {}

  /**
   * A frame of a complete level moves no body: the enemies stay put and the
   * player either stays or, on touching an enemy, is replaced at the spawn.
   */
  lemma CompleteFreezes(w: World, st: Stage, dt: real, inputAxis: real, cfg: Constants)
    requires w.complete
    ensures var r := FrameStep(w, st, dt, inputAxis, cfg);
      r.complete && r.enemies == w.enemies &&
      (r.player == w.player || r.player == SpawnedPlayer(st.playerSpawn, cfg.tileSize))
  {}

  /**
   * A complete level whose player touches no enemy and no uncollected
   * pickup is left exactly as it is by every frame.
   */
  lemma SettledIsFixpoint(w: World, st: Stage, dt: real, inputAxis: real, cfg: Constants)
    requires w.complete
    requires !Contact(w.player.rect, w.enemies)
    requires forall i :: 0 <= i < |w.collectibles| ==> !Grabs(w.player.rect, w.collectibles[i])
    ensures FrameStep(w, st, dt, inputAxis, cfg) == w
  {
    var r := FrameStep(w, st, dt, inputAxis, cfg);
    NothingGrabbed(w.player.rect, w.collectibles);
    assert r.collectibles == w.collectibles;
  }

  lemma {:induction false} NothingGrabbed(box: Rect, cs: seq<Collectible>)
    requires forall i :: 0 <= i < |cs| ==> !Grabs(box, cs[i])
    ensures Gain(box, cs) == 0 && Pickups(box, cs) == cs
    decreases |cs|
  {
    if cs != [] {
      NothingGrabbed(box, cs[..|cs| - 1]);
    }
  }

  // ---------------------------------------------------------------------------
  // The session state
  // ---------------------------------------------------------------------------

  function SpawnedEnemies(spawns: seq<(int, int)>, tile: int): seq<EnemyState>
  {
    seq(|spawns|, i requires 0 <= i < |spawns| => SpawnedEnemy(spawns[i], tile))
  }

  /** The world right after loading: everyone at their spawn, nothing collected, no score. */
  function Fresh(l: Layout, deaths: nat, tile: int): World {
    World(SpawnedPlayer(l.playerSpawn, tile), SpawnedEnemies(l.enemySpawns, tile), l.collectibles, 0, deaths, false)
  }

  function EnemyStates(es: seq<Enemy>): (r: seq<EnemyState>)
    reads es
    ensures |r| == |es| && forall i :: 0 <= i < |es| ==> r[i] == es[i].State()
    decreases |es|
  {
    if es == [] then [] else EnemyStates(es[..|es| - 1]) + [Last(es).State()]
  }

  function StageOf(level: LevelData): Stage {
    Stage(level.solids, level.goal, level.playerSpawn, level.sizePx)
  }

  /** The static part of a parsed level. */
  function Staged(l: Layout): Stage {
    Stage(l.solids, l.goal, l.playerSpawn, l.sizePx)
  }

  /** A freshly loaded level, as a world. */
  lemma LoadedWorld(data: LevelData, l: Layout, p: Player, deaths: nat, tile: int)
    requires SpawnedAt(data.enemies, l.enemySpawns, tile)
    requires p.State() == SpawnedPlayer(l.playerSpawn, tile)
    requires data.collectibles == l.collectibles
    requires forall i :: 0 <= i < |data.collectibles| ==> !data.collectibles[i].collected
    ensures World(p.State(), EnemyStates(data.enemies), data.collectibles, 0, deaths, false) == Fresh(l, deaths, tile)
    ensures CollectedValue(data.collectibles) == 0
  {
    NothingCollectedYet(data.collectibles);
  }

  /** A freshly parsed level scores nothing. */
  lemma {:induction false} NothingCollectedYet(cs: seq<Collectible>)
    requires forall i :: 0 <= i < |cs| ==> !cs[i].collected
    ensures CollectedValue(cs) == 0
    decreases |cs|
  {
    if cs != [] {
      NothingCollectedYet(cs[..|cs| - 1]);
    }
  }

  /**
   * The pickup pass of a frame, in list order: every uncollected pickup the
   * box overlaps becomes collected and its value is counted.
   */
  method PickUp(box: Rect, cs: seq<Collectible>) returns (collected: seq<Collectible>, gained: int)
    ensures collected == Pickups(box, cs) && gained == Gain(box, cs)
  {
    collected := cs;
    gained := 0;
    for i := 0 to |cs|
      invariant |collected| == |cs|
      invariant forall j :: 0 <= j < i ==> collected[j] == PickedUp(box, cs[j])
      invariant forall j :: i <= j < |cs| ==> collected[j] == cs[j]
      invariant gained == Gain(box, cs[..i])
    {
      var c := collected[i];
      GainOneMore(box, cs, i);
      if !c.collected && Collide(box, c.rect) {
        collected := collected[i := c.(collected := true)];
        gained := gained + c.value;
      }
    }
    assert cs[..|cs|] == cs;
  }

  /** The state the game loop keeps between frames. */
  class Game {
    const cfg: Constants
    const source: seq<string>
    var level: LevelData
    var player: Player
    var score: int
    var deaths: nat
    var levelComplete: bool

    ghost predicate Valid()
      reads this, level.enemies
    {
      cfg.Valid() && source != [] &&
      Distinct(level.enemies) && score == CollectedValue(level.collectibles)
    }

    function View(): World
      reads this, player, level.enemies
    {
      World(player.State(), EnemyStates(level.enemies), level.collectibles, score, deaths, levelComplete)
    }

    /** Loads the level and places the player at its spawn point. */
    constructor (source: seq<string>, cfg: Constants)
      requires source != [] && cfg.Valid()
      ensures Valid()
      ensures View() == Fresh(ParseLevel(source, cfg.tileSize).value, 0, cfg.tileSize)
      ensures StageOf(level) == Staged(ParseLevel(source, cfg.tileSize).value)
      ensures this.source == source && this.cfg == cfg
    {
      this.cfg := cfg;
      this.source := source;
      var loaded := LoadLevel(source, cfg);
      var data := loaded.value;
      ghost var l := ParseLevel(source, cfg.tileSize).value;
      ParsedUncollected(source, cfg.tileSize);
      var p := new Player(data.playerSpawn, cfg);
      level := data;
      player := p;
      score := 0;
      deaths := 0;
      levelComplete := false;
      new;
      LoadedWorld(level, l, player, 0, cfg.tileSize);
    }

    /** Reloads the level and the player; the death count survives. */
    method ResetLevel()
      requires Valid()
      modifies this
      ensures Valid()
      ensures View() == Fresh(ParseLevel(source, cfg.tileSize).value, old(deaths), cfg.tileSize)
      ensures StageOf(level) == Staged(ParseLevel(source, cfg.tileSize).value)
      ensures fresh(player) && forall e :: e in level.enemies ==> fresh(e)
    {
      var loaded := LoadLevel(source, cfg);
      var data := loaded.value;
      ghost var l := ParseLevel(source, cfg.tileSize).value;
      ParsedUncollected(source, cfg.tileSize);
      var p := new Player(data.playerSpawn, cfg);
      level := data;
      player := p;
      score := 0;
      levelComplete := false;
      LoadedWorld(level, l, player, deaths, cfg.tileSize);
    }

    /**
     * One frame after input has been read: the simulation rules, then the
     * camera offset for drawing. The program writes the four phases inline
     * in its loop; here they are the four methods below, with the same
     * statements.
     */
    method Step(dt: real, inputAxis: real) returns (cameraX: int, cameraY: int)
      requires Valid()
      modifies this, player, level.enemies
      ensures Valid()
      ensures level.enemies == old(level.enemies) && StageOf(level) == StageOf(old(level))
      ensures View() == FrameStep(old(View()), StageOf(level), dt, inputAxis, cfg)
      ensures (cameraX, cameraY) == Camera(player.rect, level.sizePx, cfg)
    {
      ghost var w0 := View();
      if !levelComplete {
        AdvanceBodies(dt, inputAxis);
      }
      ghost var st := StageOf(level);
      ghost var w1 := View();
      assert w1 == Advance(w0, st, dt, inputAxis, cfg);
      assert score == CollectedValue(level.collectibles) && Distinct(level.enemies);
      CollectPickups();
      ghost var w2 := View();
      assert w2 == Collect(w1);
      CheckEnemies();
      ghost var w3 := View();
      assert w3 == Die(w2, st, cfg);
      CheckGoal();
      cameraX := CameraAxis(player.rect.CenterX(), cfg.screenWidth, level.sizePx.0);
      cameraY := CameraAxis(player.rect.CenterY(), cfg.screenHeight, level.sizePx.1);
    }

    /** Moves the player, then every enemy in list order. */
    method AdvanceBodies(dt: real, inputAxis: real)
      requires Distinct(level.enemies) && !levelComplete
      modifies player, level.enemies
      ensures View() == Advance(old(View()), StageOf(level), dt, inputAxis, cfg)
    {
      ghost var es0 := EnemyStates(level.enemies);
      player.Update(dt, level.solids, inputAxis, cfg);
      var enemies := level.enemies;
      for i := 0 to |enemies|
        invariant player.State() == PlayerStep(old(player.State()), dt, level.solids, inputAxis, cfg)
        invariant forall j :: 0 <= j < i ==> enemies[j].State() == EnemyStep(es0[j], dt, level.solids, cfg)
        invariant forall j :: i <= j < |enemies| ==> enemies[j].State() == es0[j]
      {
        enemies[i].Update(dt, level.solids, cfg);
      }
      assert EnemyStates(enemies) == EnemySteps(es0, dt, level.solids, cfg);
    }

    /** Marks every uncollected pickup the player overlaps as collected and adds its value. */
    method CollectPickups()
      requires score == CollectedValue(level.collectibles)
      modifies this
      ensures View() == Collect(old(View()))
      ensures level == old(level).(collectibles := level.collectibles)
      ensures score == CollectedValue(level.collectibles)
    {
      GainCounted(player.rect, level.collectibles);
      var collectibles, gained := PickUp(player.rect, level.collectibles);
      level := level.(collectibles := collectibles);
      score := score + gained;
    }

    /** Reaching the goal completes the level. */
    method CheckGoal()
      modifies this
      ensures View() == Finish(old(View()), StageOf(level))
      ensures level == old(level) && player == old(player)
    {
      if Collide(player.rect, level.goal.rect) {
        levelComplete := true;
      }
    }

    /** The first enemy the player overlaps kills it: one more death and a fresh player at the spawn point. */
    method CheckEnemies()
      modifies this
      ensures View() == Die(old(View()), StageOf(level), cfg)
      ensures level == old(level)
    {
      var enemies := level.enemies;
      var k := 0;
      while k < |enemies|
        invariant 0 <= k <= |enemies|
        invariant level == old(level) && score == old(score) && levelComplete == old(levelComplete)
        invariant deaths == old(deaths) && player == old(player)
        invariant forall j :: 0 <= j < k ==> !Collide(player.rect, enemies[j].rect)
      {
        if Collide(player.rect, enemies[k].rect) {
          assert EnemyStates(enemies)[k].rect == enemies[k].rect;
          deaths := deaths + 1;
          player := new Player(level.playerSpawn, cfg);
          return;
        }
        k := k + 1;
      }
      assert !Contact(player.rect, EnemyStates(enemies));
    }
  }
}
