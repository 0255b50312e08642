/** The game loop of js/engine.js without its drawing: the `gameOver` and
  * `lastTime` flags, the tick (`update` / `updateEntities` / `endGame`),
  * `reset`, `playGame` and the time bookkeeping of `main`. The timestamps of
  * `Date.now()` and the random draws of the resets are parameters. */
module Engine {
  import opened Utils
  import opened Rules
  import opened App

  /** The world together with the engine's `gameOver` flag. */
  datatype GameState = GameState(world: WorldState, gameOver: bool)

  /** What stays true of the world while the game runs: the enemies ride in
    * their lanes, there are five collectibles and their counter matches the
    * flags, and the player has no negative number of lives. */
  predicate Playable(w: WorldState) {
    (forall i :: 0 <= i < |w.enemies| ==> InLane(w.enemies[i].y)) &&
    |w.collection.items| == CollectibleCount && CounterMatches(w.collection) &&
    w.player.numLives >= 0
  }

  /** The branch of `updateEntities` taken while the player has lives left:
    * all enemies, then the player, then every collectible, in that order. */
  function Round(w: WorldState, dt: real, cells: seq<Cell>): (r: WorldState)
    requires |cells| == |w.collection.items| && ValidCells(cells)
    ensures |r.enemies| == |w.enemies| && |r.collection.items| == |w.collection.items|
    ensures forall i :: 0 <= i < |w.enemies| ==>
      r.enemies[i] == w.enemies[i].(x := EnemyMove(w.enemies[i].x, w.enemies[i].speed, dt))
  {
    var afterEnemies := EnemiesTick(w.enemies, w.player, dt);
    var afterCollectibles := CollectiblesTick(w.collection, PlayerStep(afterEnemies.1), cells, |w.collection.items|);
    WorldState(afterEnemies.0, afterCollectibles.1, afterCollectibles.0)
  }

  /** `updateEntities(dt)`: a round while lives are left, `endGame` otherwise. */
  function EntitiesStep(g: GameState, dt: real, cells: seq<Cell>): (r: GameState)
    requires |cells| == |g.world.collection.items| && ValidCells(cells)
    ensures r.gameOver <==> g.gameOver || g.world.player.numLives == 0
    ensures g.world.player.numLives == 0 ==> r.world == g.world
  {
    if g.world.player.numLives != 0 then g.(world := Round(g.world, dt, cells))
    else g.(gameOver := true)
  }

  /** `update(dt)`: once the game is over nothing moves any more. */
  function Tick(g: GameState, dt: real, cells: seq<Cell>): (r: GameState)
    requires |cells| == |g.world.collection.items| && ValidCells(cells)
    ensures g.gameOver ==> r == g
    ensures r.gameOver <==> g.gameOver || g.world.player.numLives == 0
    ensures r.gameOver ==> r.world == g.world
  {
    if g.gameOver then g else EntitiesStep(g, dt, cells)
  }

  /** `reset()`: the game runs again, the player is reset with its lives
    * and the collectibles are put back on the grid. */
  function ResetGame(g: GameState, cells: seq<Cell>): (r: GameState)
    requires |cells| == |g.world.collection.items| && ValidCells(cells)
    ensures !r.gameOver && r.world.enemies == g.world.enemies
    ensures r.world.player.x == StartX && r.world.player.y == StartY
    ensures r.world.collection.numCollected == 0
    ensures g.world.player.numLives == 0 ==> r.world.player.numLives == StartLives && r.world.player.score == 0
    ensures g.world.player.numLives != 0 ==>
      r.world.player.numLives == g.world.player.numLives && r.world.player.score == g.world.player.score
  {
    var w := g.world;
    GameState(w.(player := ResetPlayer(w.player, true), collection := Collection(ResetItems(w.collection.items, cells), 0)), false)
  }

  /** One round keeps the world playable and costs at most one life; the
    * counter of collected items stays within the five items. */
  lemma {:induction false} RoundKeepsPlayable(w: WorldState, dt: real, cells: seq<Cell>)
    requires Playable(w) && w.player.numLives != 0
    requires |cells| == |w.collection.items| && ValidCells(cells)
    ensures Playable(Round(w, dt, cells))
    ensures w.player.numLives - 1 <= Round(w, dt, cells).player.numLives <= w.player.numLives
    ensures Round(w, dt, cells).collection.numCollected <= CollectibleCount
  {
    AtMostOneHit(w.enemies, w.player, dt);
    EnemiesTickPenalty(w.enemies, w.player, dt);
    var afterEnemies := EnemiesTick(w.enemies, w.player, dt);
    CollectiblesTickKeepsCounter(w.collection, PlayerStep(afterEnemies.1), cells, |w.collection.items|);
  }

  /** A tick keeps the world playable. */
  lemma TickKeepsPlayable(g: GameState, dt: real, cells: seq<Cell>)
    requires Playable(g.world)
    requires |cells| == |g.world.collection.items| && ValidCells(cells)
    ensures Playable(Tick(g, dt, cells).world)
  {
    if !g.gameOver && g.world.player.numLives != 0 {
      RoundKeepsPlayable(g.world, dt, cells);
    }
  }

  /** After `reset()` a playable world can be played: it is still playable,
    * the game is not over and the player has at least one life. */
  lemma ResetGameResumes(g: GameState, cells: seq<Cell>)
    requires Playable(g.world)
    requires |cells| == |g.world.collection.items| && ValidCells(cells)
    ensures Playable(ResetGame(g, cells).world)
    ensures !ResetGame(g, cells).gameOver && ResetGame(g, cells).world.player.numLives > 0
  {
  }

  /** The ticks of a run of `main`, the k-th with time step `dts[k]` and the
    * draws `cells[k]` for a reset of the collectibles during it. */
  function Run(g: GameState, dts: seq<real>, cells: seq<seq<Cell>>): (r: GameState)
    requires |cells| == |dts|
    requires forall k :: 0 <= k < |cells| ==> |cells[k]| == |g.world.collection.items| && ValidCells(cells[k])
    ensures |r.world.collection.items| == |g.world.collection.items|
    decreases |dts|
  {
    if dts == [] then g
    else
      var next := Tick(g, dts[0], cells[0]);
      assert |next.world.collection.items| == |g.world.collection.items|;
      Run(next, dts[1..], cells[1..])
  }

  /** Over any run the world stays playable, the number of lives never drops
    * by more than the number of ticks, and a game that is over stays over
    * with the world frozen. */
  lemma {:induction false} RunKeepsPlayable(g: GameState, dts: seq<real>, cells: seq<seq<Cell>>)
    requires Playable(g.world)
    requires |cells| == |dts|
    requires forall k :: 0 <= k < |cells| ==> |cells[k]| == |g.world.collection.items| && ValidCells(cells[k])
    ensures Playable(Run(g, dts, cells).world)
    ensures Run(g, dts, cells).world.player.numLives >= g.world.player.numLives - |dts|
    ensures g.gameOver ==> Run(g, dts, cells) == g
    decreases |dts|
  {
    if dts != [] {
      var next := Tick(g, dts[0], cells[0]);
      TickKeepsPlayable(g, dts[0], cells[0]);
      if !g.gameOver && g.world.player.numLives != 0 {
        RoundKeepsPlayable(g.world, dts[0], cells[0]);
      }
      RunKeepsPlayable(next, dts[1..], cells[1..]);
    }
  }

  /** The engine's own state, the closure variables of js/engine.js, over
    * the globals of js/app.js. */
  class GameEngine {
    var gameOver: bool
    var lastTime: int
    const world: World

    ghost predicate Valid()
      reads world, world.allEnemies, world.player, world.collectibles, world.collectibles.items
    {
      world.Valid() && world.player.numLives >= 0
    }

    function Game(): GameState
      reads this`gameOver, world, world.allEnemies, world.player, world.collectibles, world.collectibles.items
    {
      GameState(world.Snapshot(), gameOver)
    }

    /** The engine starts with `gameOver` false; `lastTime` is unset until
      * `playGame`, and is 0 here. */
    constructor(world: World)
      requires world.Valid() && world.player.numLives >= 0
      ensures Valid() && this.world == world && !gameOver && lastTime == 0
    {
      this.world := world;
      gameOver := false;
      lastTime := 0;
    }

    /** `endGame()`. */
    method EndGame()
      modifies this`gameOver
      ensures gameOver
    {
      gameOver := true;
    }

    /** `updateEntities(dt)`. */
    method UpdateEntities(dt: real, cells: seq<Cell>)
      requires Valid() && |cells| == CollectibleCount && ValidCells(cells)
      modifies this`gameOver, world.player, (set e | e in world.allEnemies)
      modifies world.collectibles`numCollected, (set c | c in world.collectibles.items)
      ensures Valid()
      ensures Game() == EntitiesStep(old(Game()), dt, cells)
    {
      var player := world.player;
      if player.numLives == 0 {
        EndGame();
        return;
      }
      ghost var w0 := world.Snapshot();
      WorldPlayable(world);
      RoundKeepsPlayable(w0, dt, cells);
      PlayRound(world, dt, cells);
      PlayableWorldIsValid(world);
    }

    /** `update(dt)`. */
    method Update(dt: real, cells: seq<Cell>)
      requires Valid() && |cells| == CollectibleCount && ValidCells(cells)
      modifies this`gameOver, world.player, (set e | e in world.allEnemies)
      modifies world.collectibles`numCollected, (set c | c in world.collectibles.items)
      ensures Valid()
      ensures Game() == Tick(old(Game()), dt, cells)
    {
      if !gameOver {
        UpdateEntities(dt, cells);
      }
    }

    /** `reset()`. */
    method Reset(cells: seq<Cell>)
      requires Valid() && |cells| == CollectibleCount && ValidCells(cells)
      modifies this`gameOver, world.player
      modifies world.collectibles`numCollected, (set c | c in world.collectibles.items)
      ensures Valid()
      ensures Game() == ResetGame(old(Game()), cells)
    {
      gameOver := false;
      world.player.Reset(true);
      world.collectibles.Reset(cells);
    }

    /** One call of `main()` at time `now`: the time step since the last
      * call, then one tick; the next frame is a further call. */
    method Frame(now: int, cells: seq<Cell>) returns (dt: real)
      requires Valid() && |cells| == CollectibleCount && ValidCells(cells)
      modifies this`gameOver, this`lastTime, world.player, (set e | e in world.allEnemies)
      modifies world.collectibles`numCollected, (set c | c in world.collectibles.items)
      ensures Valid()
      ensures dt == (now - old(lastTime)) as real / 1000.0 && lastTime == now
      ensures Game() == Tick(old(Game()), dt, cells)
    {
      dt := (now - lastTime) as real / 1000.0;
      Update(dt, cells);
      ghost var afterTick := Game();
      lastTime := now;
      assert Game() == afterTick;
    }

    /** `playGame()`: a reset, then `lastTime` is set to the clock reading
      * `startTime`, then the first frame runs at the later reading `frameTime`. */
    method PlayGame(startTime: int, frameTime: int, resetCells: seq<Cell>, tickCells: seq<Cell>)
      requires Valid() && |resetCells| == CollectibleCount && ValidCells(resetCells)
      requires |tickCells| == CollectibleCount && ValidCells(tickCells)
      modifies this`gameOver, this`lastTime, world.player, (set e | e in world.allEnemies)
      modifies world.collectibles`numCollected, (set c | c in world.collectibles.items)
      ensures Valid() && lastTime == frameTime
      ensures Game() == Tick(ResetGame(old(Game()), resetCells), (frameTime - startTime) as real / 1000.0, tickCells)
    {
      Reset(resetCells);
      StartClock(startTime, frameTime, tickCells);
    }

    /** The part of `playGame()` after the reset: the clock is read once into
      * `lastTime`, then the first frame runs. */
    method StartClock(startTime: int, frameTime: int, cells: seq<Cell>)
      requires Valid() && |cells| == CollectibleCount && ValidCells(cells)
      modifies this`gameOver, this`lastTime, world.player, (set e | e in world.allEnemies)
      modifies world.collectibles`numCollected, (set c | c in world.collectibles.items)
      ensures Valid() && lastTime == frameTime
      ensures Game() == Tick(old(Game()), (frameTime - startTime) as real / 1000.0, cells)
    {
      lastTime := startTime;
      ghost var started := Game();
      assert started == old(Game());
      var dt := Frame(frameTime, cells);
      assert dt == (frameTime - startTime) as real / 1000.0;
      assert Game() == Tick(started, dt, cells);
    }
  }

  /** The `allEnemies.forEach` loop of `updateEntities`: each enemy moves
    * and checks for a collision with the player in turn. */
  method UpdateEnemies(enemies: seq<Enemy>, player: Player, dt: real)
    requires Distinct(enemies)
    modifies player, set e | e in enemies
    ensures (EnemyStates(enemies), player.State()) == EnemiesTick(old(EnemyStates(enemies)), old(player.State()), dt)
  {
    ghost var es := EnemyStates(enemies);
    ghost var p := player.State();
    for i := 0 to |enemies|
      invariant forall t :: 0 <= t < i ==> enemies[t].State() == EnemiesTick(es[..i], p, dt).0[t]
      invariant forall t :: i <= t < |enemies| ==> enemies[t].State() == es[t]
      invariant player.State() == EnemiesTick(es[..i], p, dt).1
    {
      assert es[..i + 1][..i] == es[..i];
      enemies[i].Update(dt, player);
    }
    assert es[..|enemies|] == es;
    assert EnemyStates(enemies) == EnemiesTick(es, p, dt).0;
  }

  /** The `Collectible.allCollectibles.forEach` loop of `updateEntities`. */
  method UpdateCollectibles(registry: CollectibleRegistry, player: Player, cells: seq<Cell>)
    requires registry.Valid() && |cells| == |registry.items| && ValidCells(cells)
    modifies registry`numCollected, (set c | c in registry.items), player`score
    ensures registry.Valid()
    ensures (registry.Value(), player.State()) ==
      CollectiblesTick(old(registry.Value()), old(player.State()), cells, |registry.items|)
  {
    ghost var c := registry.Value();
    ghost var p := player.State();
    var items := registry.items;
    for j := 0 to |items|
      invariant registry.Valid()
      invariant (registry.Value(), player.State()) == CollectiblesTick(c, p, cells, j)
    {
      items[j].Update(registry, player, cells, j);
    }
  }

  /** The living branch of `updateEntities` on the globals: the enemies,
    * the player, then the collectibles. */
  method PlayRound(world: World, dt: real, cells: seq<Cell>)
    requires world.Valid() && |cells| == CollectibleCount && ValidCells(cells)
    modifies world.player, (set e | e in world.allEnemies)
    modifies world.collectibles`numCollected, (set c | c in world.collectibles.items)
    ensures world.collectibles.Valid()
    ensures world.Snapshot() == Round(old(world.Snapshot()), dt, cells)
  {
    var player := world.player;
    var enemies := world.allEnemies;
    var registry := world.collectibles;
    ghost var w0 := world.Snapshot();
    ghost var afterEnemies := EnemiesTick(w0.enemies, w0.player, dt);
    UpdateEnemies(enemies, player, dt);
    assert registry.Value() == w0.collection;
    player.Update();
    UpdateCollectibles(registry, player, cells);
    ghost var w1 := Round(w0, dt, cells);
    assert EnemyStates(enemies) == afterEnemies.0 == w1.enemies;
    assert registry.Value() == w1.collection && player.State() == w1.player;
  }

  /** A valid world whose player has no negative lives is playable. */
  lemma WorldPlayable(world: World)
    requires world.Valid() && world.player.numLives >= 0
    ensures Playable(world.Snapshot())
  {
    assert forall i :: 0 <= i < |world.allEnemies| ==> world.allEnemies[i] in world.allEnemies;
  }

  /** A playable snapshot of a world whose lists are well formed is valid. */
  lemma PlayableWorldIsValid(world: World)
    requires Distinct(world.allEnemies) && world.collectibles.Valid()
    requires Playable(world.Snapshot())
    ensures world.Valid()
  {
    forall e | e in world.allEnemies
      ensures InLane(e.y)
    {
      var i :| 0 <= i < |world.allEnemies| && world.allEnemies[i] == e;
      assert world.Snapshot().enemies[i] == e.State();
    }
  }
}
