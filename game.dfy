/**
 * The top-level game (js/game.js, `Game`): which screen the game is on,
 * the pause flag, the eleven levels, loading a level, and what one frame
 * of play does to the screen once the player and the level have moved.
 */
module Games {
  import opened Utils
  import opened Controls
  import opened Players
  import opened Blocks
  import opened Trains
  import opened Levels
  import opened Shops

  /**
   * `GameState`. `Paused` is declared by the source but never entered:
   * pausing sets the separate `paused` flag and keeps `Playing`.
   */
  datatype GameState = Menu | Playing | Paused | LevelComplete | GameOver | GameComplete | Shop

  /** The screen the game shows: its state and the pause flag. */
  datatype Screen = Screen(state: GameState, paused: bool)

  /** `togglePause`: the flag flips while playing, and nothing happens otherwise. */
  function PauseToggled(s: Screen): (r: Screen)
    ensures r.state == s.state
    ensures r.paused != s.paused <==> s.state == Playing
  {
    if s.state == Playing then s.(paused := !s.paused) else s
  }

  /** `openShop`: from an unpaused game in play to the shop, and nothing happens otherwise. */
  function ShopOpened(s: Screen): (r: Screen)
    ensures r.paused == s.paused
    ensures r != s <==> s.state == Playing && !s.paused
    ensures r != s ==> r.state == Shop
  {
    if s.state == Playing && !s.paused then s.(state := Shop) else s
  }

  /** `closeShop`: from the shop back to play, and nothing happens otherwise. */
  function ShopClosed(s: Screen): (r: Screen)
    ensures r.paused == s.paused
    ensures r != s <==> s.state == Shop
    ensures r != s ==> r.state == Playing
  {
    if s.state == Shop then s.(state := Playing) else s
  }

  /** Pausing twice is no pause at all, on every screen. */
  lemma PauseTwice(s: Screen)
    ensures PauseToggled(PauseToggled(s)) == s
  {
  }

  /** Opening the shop from play and closing it again is back where the game was. */
  lemma ShopRoundTrip(s: Screen)
    ensures s.state == Playing && !s.paused ==> ShopClosed(ShopOpened(s)) == s
    ensures s.state == Playing && s.paused ==> ShopOpened(s) == s
  {
  }

  /** The keys the game listens to outside a frame: Escape, 'b' or 'B', and any other. */
  datatype Key = Escape | ShopKey | OtherKey

  /**
   * The key listener: Escape leaves the shop for play (closing it) and
   * otherwise toggles the pause; 'b' opens the shop from an unpaused game
   * in play and closes it from the shop.
   */
  function KeyPressed(s: Screen, key: Key): (r: Screen)
    ensures key == OtherKey ==> r == s
    ensures s.state == Shop && key != OtherKey ==> r == Screen(Playing, s.paused)
    ensures s.state == Playing && key == Escape ==> r == Screen(Playing, !s.paused)
    ensures s.state != Shop && s.state != Playing ==> r == s
  {
    match key
    case Escape => if s.state == Shop then ShopClosed(s) else PauseToggled(s)
    case ShopKey => if s.state == Playing && !s.paused then ShopOpened(s) else ShopClosed(s)
    case OtherKey => s
  }

  /** What a frame's result does to the screen, in the order of `update`. */
  function Settled(s: Screen, next: Option<int>, alive: bool, shopPressed: bool): (r: Screen)
    ensures r.paused == s.paused
    ensures !alive ==> r.state == GameOver
    ensures alive && next.Some? ==> r.state == LevelComplete
    ensures alive && next.None? ==> r == (if shopPressed then ShopOpened(s) else s)
    ensures r.state == GameComplete ==> s.state == GameComplete
  {
    var completed := if next.Some? then s.(state := LevelComplete) else s;
    var ended := if !alive then completed.(state := GameOver) else completed;
    if shopPressed && !ended.paused then ShopOpened(ended) else ended
  }

  /**
   * The click checks of the menu and level-complete screens: a held button
   * on the menu starts play; a held button or a click on the
   * level-complete screen goes back to play (in the next level). Every
   * other screen ignores the mouse here.
   */
  function Clicked(s: Screen, mouseDown: bool, mouseClicked: bool): (r: Screen)
    ensures r.paused == s.paused
    ensures r != s <==> (s.state == Menu && mouseDown) || (s.state == LevelComplete && (mouseDown || mouseClicked))
    ensures r != s ==> r.state == Playing
  {
    if (s.state == Menu && mouseDown) || (s.state == LevelComplete && (mouseDown || mouseClicked)) then s.(state := Playing)
    else s
  }

  /**
   * A door taken in an unpaused game with the player alive completes the
   * level, whether or not 'b' was pressed in that frame, and a click then
   * brings the game back to play.
   */
  lemma DoorThenClickResumesPlay(s: Screen, nextLevelId: int, shopPressed: bool, mouseClicked: bool)
    requires s.state == Playing && !s.paused
    ensures Settled(s, Some(nextLevelId), true, shopPressed) == Screen(LevelComplete, false)
    ensures Clicked(Settled(s, Some(nextLevelId), true, shopPressed), true, mouseClicked) == Screen(Playing, false)
  {
  }

  /**
   * Two snapshots of a level that agree on what its exit depends on: the
   * open doors and the key and bird counts.
   */
  ghost predicate SameStart(f: FrameStart, g: FrameStart)
  {
    f.open == g.open && f.mazeKeys == g.mazeKeys && f.birdsFreed == g.birdsFreed
  }

  /**
   * What the frame of `level` begun at `f` returns and leaves behind: the
   * level's next id exactly when time is not up and `Exits` holds, and the
   * door step's books `DoorsDone`.
   */
  ghost predicate LevelOutcome(level: Level, player: Player, input: Input, f: FrameStart, next: Option<int>, unlocked: set<Door>)
    reads level, player`x, player`y, (set d | d in level.doors)`locked
  {
    next == (if !(level.timedLevel && level.timeRemaining <= 0.0) && level.Exits(f, player) then level.nextLevelId else None) &&
    level.DoorsDone(f, player, input, unlocked)
  }

  /** The layout of a level can be built: doors listed once, trains and birds valid. */
  ghost predicate Buildable(layout: Layout)
    reads (set t | t in layout.trains)`direction, (set t | t in layout.trains)`currentPathIndex
    reads (set b | b in layout.birds)`wingState
  {
    Distinct(layout.doors) && (forall t :: t in layout.trains ==> t.Valid()) && (forall b :: b in layout.birds ==> b.Valid())
  }

  /**
   * A level's frame, framed as the game sees it: whatever it changes lies
   * in the level's footprint, the player, the player's projectiles and the
   * random source.
   */
  method RunLevel(level: Level, deltaTime: real, player: Player, input: Input, env: Env)
    returns (next: Option<int>, ghost unlocked: set<Door>, ghost f: FrameStart)
    requires level.Valid() && player.Valid() && env.rng.Valid()
    requires level.spawner != null ==> env.trig.sqrt(level.spawner.difficultyLevel as real) >= 1.0
    modifies level.Footprint(), player, set p | p in player.projectiles
    modifies env.rng
    ensures level.Valid() && player.Valid()
    ensures SameStart(f, old(level.Start(player))) && level.spawner == old(level.spawner)
    ensures LevelOutcome(level, player, input, f, next, unlocked)
  {
    next, unlocked, f := level.Update(deltaTime, player, input, env);
  }

  /** A player's health, weapon, projectiles and progress. */
  datatype PlayerStats = PlayerStats(health: int, maxHealth: int, weaponLevel: int, active: bool, projectiles: seq<Projectile>,
                                     score: int, coins: int, level: int, xp: int, xpToNextLevel: int)

  /** The stats of `player`: everything but its position, speed, timers and upgrades. */
  function Standing(player: Player): PlayerStats
    reads player`health, player`maxHealth, player`weaponLevel, player`active, player`projectiles, player`score
    reads player`coins, player`level, player`xp, player`xpToNextLevel
  {
    PlayerStats(player.health, player.maxHealth, player.weaponLevel, player.active, player.projectiles,
                player.score, player.coins, player.level, player.xp, player.xpToNextLevel)
  }

  /** The stats a new player starts with, wherever it stands. */
  ghost predicate Starting(player: Player)
    reads player`health, player`maxHealth, player`weaponLevel, player`active, player`projectiles, player`score
    reads player`coins, player`level, player`xp, player`xpToNextLevel
  {
    Standing(player) == PlayerStats(100, 100, 1, true, [], 0, 0, 1, 0, 100)
  }

  /**
   * `level` is what the factory builds for `id` from `layout` on a canvas
   * of height `height`: its settings, its full clock, no coins yet, and
   * the layout's entities.
   */
  ghost predicate BuiltFrom(level: Level, id: int, height: real, layout: Layout)
    reads level`timeRemaining, level`coins, level`powerUps, level`birds
  {
    level.Follows(SettingsFor(id)) && level.height == height &&
    level.timeRemaining == SettingsFor(id).timeLimit && level.coins == [] &&
    level.blocks == layout.blocks && level.powerUps == layout.powerUps && level.doors == layout.doors &&
    level.birds == layout.birds && level.trains == layout.trains && level.spawnAreas == layout.spawnAreas
  }

  /** The eleven levels `init` builds, each from its layout, keyed by id, none initialised yet. */
  method BuildLevels(width: real, height: real, layouts: seq<Layout>) returns (levels: map<int, Level>)
    requires |layouts| == LevelCount
    requires forall i :: 0 <= i < |layouts| ==> Buildable(layouts[i])
    ensures forall i :: i in levels <==> 1 <= i <= LevelCount
    ensures forall i :: i in levels ==> fresh(levels[i]) && levels[i].Valid() && levels[i].spawner == null && levels[i].id == i
    ensures forall i :: i in levels ==> BuiltFrom(levels[i], i, height, layouts[i - 1])
  {
    levels := map[];
    var i := 1;
    while i <= LevelCount
      invariant 1 <= i <= LevelCount + 1
      invariant forall k :: k in levels <==> 1 <= k < i
      invariant forall k :: k in levels ==> fresh(levels[k]) && levels[k].Valid() && levels[k].spawner == null && levels[k].id == k
      invariant forall k :: k in levels ==> BuiltFrom(levels[k], k, height, layouts[k - 1])
    {
      var level := CreateLevel(i, width, height, layouts[i - 1]);
      levels := levels[i := level];
      i := i + 1;
    }
  }

  class Game {
    var state: GameState
    var paused: bool
    const player: Player
    const shop: ShopSystem
    const levels: map<int, Level>
    var currentLevel: Level?
    var currentLevelId: int
    const width: real
    const height: real

    /** The player and the current level, when there is one, are valid; the shop serves this player. */
    ghost predicate Valid()
      reads this`currentLevel, player`xpToNextLevel, player`projectiles
      reads if currentLevel == null then {} else currentLevel.Footprint()
    {
      player.Valid() && shop.player == player && shop.items == Catalog &&
      (currentLevel != null ==> currentLevel.Valid())
    }

    /** The screen the game is on. */
    function View(): Screen
      reads this`state, this`paused
    {
      Screen(state, paused)
    }

    /**
     * The constructor and `init`: the menu, unpaused, with a new player and
     * a shop for it, levels 1 to 11 built by the factory from their
     * layouts, and level 1 loaded: its spawner made and the player moved
     * from (50, height / 2 - 20) to level 1's start.
     */
    constructor (width: real, height: real, layouts: seq<Layout>)
      requires |layouts| == LevelCount
      requires forall i :: 0 <= i < |layouts| ==> Buildable(layouts[i])
      ensures Valid() && this.width == width && this.height == height
      ensures Initial(layouts)
    {
      var built := BuildLevels(width, height, layouts);
      state := Menu;
      paused := false;
      var p := new Player(50.0, height / 2.0 - 20.0);
      assert Starting(p);
      player := p;
      shop := new ShopSystem(p);
      this.width := width;
      this.height := height;
      levels := built;
      currentLevel := null;
      currentLevelId := 1;
      new;
      LoadFirstLevel(layouts);
    }

    /**
     * The game as `init` leaves it: on the menu, unpaused; levels 1 to 11
     * built by the factory from `layouts`, only level 1 with a spawner,
     * fresh and empty; level 1 current; the player with its starting
     * stats, standing at level 1's start (50, height / 2).
     */
    ghost predicate Initial(layouts: seq<Layout>)
      reads this, player, set l | l in levels.Values
      reads if currentLevel == null then {} else {currentLevel}
      reads if currentLevel == null || currentLevel.spawner == null then {} else {currentLevel.spawner}
    {
      state == Menu && !paused && |layouts| == LevelCount &&
      (forall i :: i in levels <==> 1 <= i <= LevelCount) &&
      (forall i :: i in levels ==> BuiltFrom(levels[i], i, height, layouts[i - 1])) &&
      (forall i :: i in levels && i != 1 ==> levels[i].spawner == null) &&
      currentLevelId == 1 && currentLevel == levels[1] &&
      currentLevel.spawner != null && currentLevel.spawner.enemies == [] &&
      currentLevel.spawner.difficultyLevel == CeilHalf(1) &&
      (player.x, player.y) == (50.0, height / 2.0) && Starting(player)
    }

    /**
     * The `loadLevel(1)` that ends `init`, with no level loaded yet: level 1
     * gets its spawner and the new player moves to level 1's start; the
     * other levels and the player's stats stay as built.
     */
    method LoadFirstLevel(layouts: seq<Layout>)
      requires state == Menu && !paused && |layouts| == LevelCount
      requires player.Valid() && shop.player == player && shop.items == Catalog
      requires forall i :: i in levels <==> 1 <= i <= LevelCount
      requires levels[1].Valid() && forall i :: i in levels ==> levels[i].spawner == null && levels[i].id == i
      requires forall i :: i in levels ==> BuiltFrom(levels[i], i, height, layouts[i - 1])
      requires Starting(player)
      modifies this`currentLevel, this`currentLevelId, player`x, player`y, {levels[1]}`spawner
      ensures Valid() && Initial(layouts)
    {
      assert levels[1].playerStartPosition == (50.0, height / 2.0) by {
        assert SettingsFor(1) == FirstLevelSettings;
      }
      Enter(1, layouts[0]);
    }

    /** `togglePause`. */
    method TogglePause()
      modifies this`paused
      ensures View() == PauseToggled(old(View()))
    {
      if state == Playing {
        paused := !paused;
      }
    }

    /** `openShop`: the shop opens exactly when the screen moves to it. */
    method OpenShop()
      requires Valid()
      modifies this`state, shop`isOpen
      ensures Valid()
      ensures View() == ShopOpened(old(View()))
      ensures shop.isOpen == (old(shop.isOpen) || state != old(state))
    {
      if state == Playing && !paused {
        state := Shop;
        shop.Open();
      }
    }

    /** `closeShop`: the shop closes, with nothing selected, exactly when the screen leaves it. */
    method CloseShop()
      modifies this`state, shop`isOpen, shop`selectedItem
      ensures View() == ShopClosed(old(View()))
      ensures old(state) == Shop ==> !shop.isOpen && shop.selectedItem == None
      ensures old(state) != Shop ==> unchanged(shop)
    {
      if state == Shop {
        state := Playing;
        shop.Close();
      }
    }

    /** The key listener installed by `init`. */
    method KeyDown(key: Key)
      requires Valid()
      modifies this`state, this`paused, shop`isOpen, shop`selectedItem
      ensures Valid()
      ensures View() == KeyPressed(old(View()), key)
    {
      match key
      case Escape =>
        if state == Shop {
          shop.Close();
          state := Playing;
        } else {
          TogglePause();
        }
      case ShopKey =>
        if state == Playing && !paused {
          OpenShop();
        } else if state == Shop {
          CloseShop();
        }
      case OtherKey =>
    }

    /** `gameOver`. */
    method GameOver()
      requires Valid()
      modifies this`state
      ensures Valid()
      ensures state == GameState.GameOver
    {
      state := GameState.GameOver;
    }

    /** `completeLevel`: the level is complete and `nextLevelId` becomes the current id. */
    method CompleteLevel(nextLevelId: int)
      requires Valid()
      modifies this`state, this`currentLevelId
      ensures Valid()
      ensures state == LevelComplete && currentLevelId == nextLevelId
    {
      state := LevelComplete;
      currentLevelId := nextLevelId;
    }

    /** `completeGame`: never called by `update`, as `Update` shows. */
    method CompleteGame()
      modifies this`state
      ensures state == GameComplete
    {
      state := GameComplete;
    }

    /**
     * The click checks of `drawMenu` and `drawLevelComplete`: the menu
     * starts play; the level-complete screen goes back to play and loads
     * the level `completeLevel` recorded.
     */
    method Click(input: Input, firstLayout: Layout)
      requires Valid()
      requires currentLevelId in levels ==> levels[currentLevelId].Valid() && levels[currentLevelId].id >= 1
      requires currentLevelId !in levels ==> Buildable(firstLayout)
      modifies this`state, this`currentLevel, this`currentLevelId, player`x, player`y
      modifies if currentLevel == null then {} else {currentLevel.spawner}
      modifies (if currentLevelId in levels then {levels[currentLevelId]} else {})`spawner
      ensures Valid()
      ensures View() == Clicked(old(View()), input.mouseDown, input.mouseClicked)
      ensures currentLevelId == old(currentLevelId)
      ensures old(state) != LevelComplete || !(input.mouseDown || input.mouseClicked) ==> currentLevel == old(currentLevel)
      ensures old(state) == LevelComplete && (input.mouseDown || input.mouseClicked) ==>
                currentLevel != null && (currentLevelId in levels ==> currentLevel == levels[currentLevelId]) &&
                (player.x, player.y) == currentLevel.playerStartPosition
    {
      if state == Menu && input.mouseDown {
        state := Playing;
      } else if state == LevelComplete && (input.mouseDown || input.mouseClicked) {
        state := Playing;
        LoadLevel(currentLevelId, firstLayout);
      }
    }

    /**
     * `loadLevel(levelId)`: the current level's spawner stops and loses
     * its enemies; the level with that id becomes current, or a fresh
     * level 1 (built from `firstLayout`) when there is none; it gets a new
     * spawner, and the player moves to its start position.
     */
    method LoadLevel(levelId: int, firstLayout: Layout)
      requires Valid()
      requires levelId in levels ==> levels[levelId].Valid() && levels[levelId].id >= 1
      requires levelId !in levels ==> Buildable(firstLayout)
      modifies this`currentLevel, this`currentLevelId, player`x, player`y
      modifies if currentLevel == null then {} else {currentLevel.spawner}
      modifies (if levelId in levels then {levels[levelId]} else {})`spawner
      ensures Valid() && currentLevel != null && currentLevelId == levelId
      ensures levelId in levels ==> currentLevel == levels[levelId]
      ensures levelId !in levels ==>
                fresh(currentLevel) && currentLevel.id == 1 && currentLevel.nextLevelId == Some(2) &&
                currentLevel.doors == firstLayout.doors
      ensures (player.x, player.y) == currentLevel.playerStartPosition
      ensures currentLevel.spawner != null && fresh(currentLevel.spawner) && currentLevel.spawner.enemies == [] &&
              currentLevel.spawner.difficultyLevel == CeilHalf(currentLevel.id)
      ensures old(currentLevel) != null && old(currentLevel.spawner) != null ==>
                !old(currentLevel.spawner).isActive && old(currentLevel.spawner).enemies == []
    {
      Leave();
      Enter(levelId, firstLayout);
    }

    /** The first half of `loadLevel`: the current level ends. */
    method Leave()
      requires Valid()
      modifies if currentLevel == null then {} else {currentLevel.spawner}
      ensures Valid()
      ensures currentLevel != null && currentLevel.spawner != null ==>
                !currentLevel.spawner.isActive && currentLevel.spawner.enemies == []
    {
      if currentLevel != null {
        currentLevel.EndLevel();
      }
    }

    /** The second half of `loadLevel`: the level is picked and initialised, and the player placed. */
    method Enter(levelId: int, firstLayout: Layout)
      requires player.Valid() && shop.player == player && shop.items == Catalog
      requires levelId in levels ==> levels[levelId].Valid() && levels[levelId].id >= 1
      requires levelId !in levels ==> Buildable(firstLayout)
      modifies this`currentLevel, this`currentLevelId, player`x, player`y
      modifies (if levelId in levels then {levels[levelId]} else {})`spawner
      ensures Valid() && currentLevel != null && currentLevelId == levelId
      ensures levelId in levels ==> currentLevel == levels[levelId]
      ensures levelId !in levels ==>
                fresh(currentLevel) && currentLevel.id == 1 && currentLevel.nextLevelId == Some(2) &&
                currentLevel.doors == firstLayout.doors
      ensures (player.x, player.y) == currentLevel.playerStartPosition && Standing(player) == old(Standing(player))
      ensures currentLevel.spawner != null && fresh(currentLevel.spawner) && currentLevel.spawner.enemies == [] &&
              currentLevel.spawner.difficultyLevel == CeilHalf(currentLevel.id)
    {
      Select(levelId, firstLayout);
      Place();
    }

    /** The level with that id (or a fresh level 1) becomes current, with a new spawner. */
    method Select(levelId: int, firstLayout: Layout)
      requires levelId in levels ==> levels[levelId].Valid() && levels[levelId].id >= 1
      requires levelId !in levels ==> Buildable(firstLayout)
      modifies this`currentLevel, this`currentLevelId
      modifies (if levelId in levels then {levels[levelId]} else {})`spawner
      ensures currentLevel != null && currentLevel.Valid() && currentLevelId == levelId
      ensures levelId in levels ==> currentLevel == levels[levelId]
      ensures levelId !in levels ==>
                fresh(currentLevel) && currentLevel.id == 1 && currentLevel.nextLevelId == Some(2) &&
                currentLevel.doors == firstLayout.doors
      ensures currentLevel.spawner != null && fresh(currentLevel.spawner) && currentLevel.spawner.enemies == [] &&
              currentLevel.spawner.difficultyLevel == CeilHalf(currentLevel.id)
    {
      currentLevelId := levelId;
      var level := PickLevel(levelId, firstLayout);
      level.Init();
      currentLevel := level;
    }

    /** The player moves to the current level's start position. */
    method Place()
      requires currentLevel != null
      modifies player`x, player`y
      ensures (player.x, player.y) == currentLevel.playerStartPosition
    {
      player.x, player.y := currentLevel.playerStartPosition.0, currentLevel.playerStartPosition.1;
    }

    /** The level `loadLevel` makes current: the one with that id, or else a fresh level 1. */
    method PickLevel(levelId: int, firstLayout: Layout) returns (level: Level)
      requires levelId in levels ==> levels[levelId].Valid() && levels[levelId].id >= 1
      requires levelId !in levels ==> Buildable(firstLayout)
      ensures level.Valid() && level.id >= 1
      ensures levelId in levels ==> level == levels[levelId]
      ensures levelId !in levels ==> fresh(level) && level.id == 1 && level.nextLevelId == Some(2) && level.doors == firstLayout.doors
    {
      if levelId !in levels {
        level := CreateLevel(1, width, height, firstLayout);
      } else {
        level := levels[levelId];
      }
    }

    /**
     * `update`: the player moves within the canvas, then the level runs its
     * frame. A level result completes the level; a player left inactive ends
     * the game; an unpaused 'b' press opens the shop when still in play.
     * A final door gives no result, so `update` never completes the game.
     */
    method Update(deltaTime: real, input: Input, env: Env) returns (ghost next: Option<int>, ghost unlocked: set<Door>, ghost f: FrameStart)
      requires Valid() && env.rng.Valid()
      requires currentLevel != null && currentLevel.spawner != null ==>
                 env.trig.sqrt(currentLevel.spawner.difficultyLevel as real) >= 1.0
      modifies this`state, this`currentLevelId, shop`isOpen, player, set p | p in player.projectiles
      modifies if currentLevel == null then {} else currentLevel.Footprint()
      modifies env.rng
      ensures Valid()
      ensures currentLevel == null ==> next == None
      ensures currentLevel != null ==>
                LevelOutcome(currentLevel, player, input, f, next, unlocked) && SameStart(f, old(currentLevel.Start(player))) &&
                currentLevel.spawner == old(currentLevel.spawner)
      ensures View() == Settled(old(View()), next, player.active, input.shopPressed)
      ensures currentLevelId == if next.Some? then next.value else old(currentLevelId)
      ensures shop.isOpen == (old(shop.isOpen) || (state != old(state) && state == Shop))
    {
      var result;
      result, unlocked, f := Frame(deltaTime, input, env);
      Settle(result, input);
      next := result;
    }

    /** The moving half of `update`: the player, then the current level. */
    method Frame(deltaTime: real, input: Input, env: Env) returns (next: Option<int>, ghost unlocked: set<Door>, ghost f: FrameStart)
      requires Valid() && env.rng.Valid()
      requires currentLevel != null && currentLevel.spawner != null ==>
                 env.trig.sqrt(currentLevel.spawner.difficultyLevel as real) >= 1.0
      modifies player, set p | p in player.projectiles
      modifies if currentLevel == null then {} else currentLevel.Footprint()
      modifies env.rng
      ensures Valid()
      ensures currentLevel == null ==> next == None
      ensures currentLevel != null ==>
                LevelOutcome(currentLevel, player, input, f, next, unlocked) && SameStart(f, old(currentLevel.Start(player))) &&
                currentLevel.spawner == old(currentLevel.spawner)
      ensures unchanged(this, shop)
    {
      MovePlayer(deltaTime, input, env);
      next, unlocked, f := PlayLevel(deltaTime, input, env);
    }

    /** The player moves within the canvas. */
    method MovePlayer(deltaTime: real, input: Input, env: Env)
      requires Valid()
      modifies player, set p | p in player.projectiles
      ensures Valid()
      ensures unchanged(this, shop)
      ensures currentLevel != null ==> currentLevel.Footprint() == old(currentLevel.Footprint())
      ensures forall p :: p in player.projectiles ==> p in old(player.projectiles) || fresh(p)
      ensures width >= player.width ==> 0.0 <= player.x && player.x + player.width <= width
      ensures height >= player.height ==> 0.0 <= player.y && player.y + player.height <= height
    {
      ghost var shots, volley, alive := player.Update(deltaTime, input, Some(Boundaries(0.0, 0.0, width, height)), env);
    }

    /** The current level, if there is one, runs its frame; its result is the frame's. */
    method PlayLevel(deltaTime: real, input: Input, env: Env) returns (next: Option<int>, ghost unlocked: set<Door>, ghost f: FrameStart)
      requires Valid() && env.rng.Valid()
      requires currentLevel != null && currentLevel.spawner != null ==>
                 env.trig.sqrt(currentLevel.spawner.difficultyLevel as real) >= 1.0
      modifies player, set p | p in player.projectiles
      modifies if currentLevel == null then {} else currentLevel.Footprint()
      modifies env.rng
      ensures Valid()
      ensures currentLevel == null ==> next == None
      ensures currentLevel != null ==>
                LevelOutcome(currentLevel, player, input, f, next, unlocked) && SameStart(f, old(currentLevel.Start(player))) &&
                currentLevel.spawner == old(currentLevel.spawner)
      ensures unchanged(this, shop)
    {
      if currentLevel == null {
        return None, {}, FrameStart(0, 0, 0, {}, {}, {}, {});
      }
      var level := currentLevel;
      next, unlocked, f := RunLevel(level, deltaTime, player, input, env);
    }

    /** The deciding half of `update`: the level result, the player's death and the shop key. */
    method Settle(next: Option<int>, input: Input)
      requires Valid()
      modifies this`state, this`currentLevelId, shop`isOpen
      ensures Valid()
      ensures View() == Settled(old(View()), next, player.active, input.shopPressed)
      ensures currentLevelId == if next.Some? then next.value else old(currentLevelId)
      ensures shop.isOpen == (old(shop.isOpen) || (state != old(state) && state == Shop))
    {
      if next.Some? {
        CompleteLevel(next.value);
      }
      if !player.active {
        GameOver();
      }
      if input.shopPressed && !paused {
        OpenShop();
      }
    }
  }
}
