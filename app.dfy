/** The entities of js/app.js as objects updated in place: enemies, the
  * player, the collectibles with their shared counter, and the start-up code
  * that creates them. Each method that has a matching value-level rule in
  * module Rules is proved to follow it; `CheckCollected` and `SetRandomPos`
  * state their effect in their own contracts. The global `player` of the
  * source is passed to the methods that read it. */
module App {
  import opened Utils
  import opened Rules

  class Enemy {
    var x: real
    var y: real
    var speed: int

    function State(): EnemyState
      reads this
    {
      EnemyState(x, y, speed)
    }

    constructor(posX: real, posY: real)
      ensures State() == EnemyState(posX, posY, 0)
    {
      x := posX;
      y := posY;
      speed := 0;
    }

    /** `Enemy.prototype.update(dt)`: move, wrap, then test against the player. */
    method Update(dt: real, player: Player)
      modifies this, player
      ensures (State(), player.State()) == EnemyTick(old(State()), old(player.State()), dt)
    {
      ghost var moved := old(State()).(x := EnemyMove(x, speed, dt));
      x := x + speed as real * dt;
      if x > RightEdge {
        x := WrapX;
      }
      assert State() == moved;
      CheckCollisions(player);
    }

    /** `Enemy.prototype.setRandomSpeed(minSpeed, maxSpeed)`, with the draw
      * `Math.floor(Math.random() * (maxSpeed - minSpeed + 1))` as `draw`. */
    method SetRandomSpeed(minSpeed: int, maxSpeed: int, draw: int)
      requires IsFloorDraw(draw, maxSpeed - minSpeed + 1)
      modifies this
      ensures State() == old(State()).(speed := RandomSpeed(minSpeed, maxSpeed, draw))
    {
      speed := draw + minSpeed;
    }

    /** `Enemy.prototype.checkCollisions`. */
    method CheckCollisions(player: Player)
      modifies player
      ensures player.State() == Collide(old(player.State()), EnemyBox(State()))
    {
      if Overlaps(PlayerBox(player.State()), EnemyBox(State())) {
        player.numLives := player.numLives - 1;
        player.score := player.score - HitPenalty;
        player.Reset(false);
      }
    }
  }

  class Player {
    var x: real
    var y: real
    var numLives: int
    var score: int

    function State(): PlayerState
      reads this
    {
      PlayerState(x, y, numLives, score)
    }

    constructor()
      ensures State() == PlayerState(0.0, 0.0, StartLives, 0)
    {
      x, y := 0.0, 0.0;
      numLives := StartLives;
      score := 0;
    }

    /** `Player.prototype.update`. */
    method Update()
      modifies this
      ensures State() == PlayerStep(old(State()))
    {
      if x < 0.0 {
        x := 0.0;
      } else if x + SpriteWidth > RightEdge {
        x := RightEdge - SpriteWidth;
      } else if y >= BottomEdge - SpriteHeight {
        y := BottomEdge - SpriteHeight - 20.0;
      } else if y <= 0.0 {
        score := score + GoalBonus;
        Reset(false);
      }
    }

    /** `Player.prototype.reset(resetLives)`. */
    method Reset(resetLives: bool)
      modifies this
      ensures State() == ResetPlayer(old(State()), resetLives)
    {
      x := RightEdge / 2.0 - SpriteWidth / 2.0;
      y := BottomEdge - SpriteHeight - 20.0;
      if resetLives && numLives == 0 {
        numLives := StartLives;
        score := 0;
      }
    }

    /** `Player.prototype.handleInput(key)`. */
    method HandleInput(key: Option<Direction>)
      modifies this
      ensures State() == MovePlayer(old(State()), key)
    {
      var distanceX := SpriteWidth;
      var distanceY := SpriteHeight / 2.0;
      match key
      case Some(Left) => x := x - distanceX;
      case Some(Right) => x := x + distanceX;
      case Some(Up) => y := y - distanceY;
      case Some(Down) => y := y + distanceY;
      case None =>
    }
  }

  class Collectible {
    const id: string
    const points: int
    var x: real
    var y: real
    var collected: bool

    function State(): ItemState
      reads this
    {
      ItemState(x, y, points, collected)
    }

    constructor(id: string, points: int)
      ensures this.id == id && State() == ItemState(0.0, 0.0, points, false)
    {
      this.id := id;
      this.points := points;
      x, y := 0.0, 0.0;
      collected := false;
    }

    /** `Collectible.prototype.setRandomPos`, with the row and column draws as `cell`. */
    method SetRandomPos(cell: Cell)
      requires ValidCell(cell)
      modifies this`x, this`y
      ensures x == CellX(cell) && y == CellY(cell)
    {
      var randRow := cell.rowDraw + 1;
      var randCol := cell.colDraw;
      x := randCol as real * SpriteWidth;
      y := randRow as real * SpriteHeight - 98.0;
    }

    /** `Collectible.prototype.update`, for the item at index `i` of
      * `Collectible.allCollectibles`; `cells` are the draws a reset would use. */
    method Update(registry: CollectibleRegistry, player: Player, cells: seq<Cell>, ghost i: nat)
      requires registry.Valid() && i < |registry.items| && registry.items[i] == this
      requires |cells| == |registry.items| && ValidCells(cells)
      modifies registry`numCollected, (set c | c in registry.items), player`score
      ensures registry.Valid()
      ensures (registry.Value(), player.State()) ==
        CollectibleStep(old(registry.Value()), i, old(player.State()), cells)
    {
      ghost var before := registry.Value();
      if registry.numCollected == CollectibleCount {
        registry.Reset(cells);
      } else if collected {
        x := ParkedX;
        y := ParkedY;
        assert ItemStates(registry.items) == before.items[i := State()];
      } else {
        CheckCollected(registry, player);
        assert ItemStates(registry.items) == before.items[i := State()];
      }
      CollectibleStepKeepsCounter(before, i, old(player.State()), cells);
    }

    /** `Collectible.prototype.checkCollected`: on contact the player scores
      * the item's points and the item is counted as collected. */
    method CheckCollected(registry: CollectibleRegistry, player: Player)
      modifies this`collected, registry`numCollected, player`score
      ensures Overlaps(PlayerBox(old(player.State())), ItemBox(old(State()))) ==>
        collected && registry.numCollected == old(registry.numCollected) + 1 &&
        player.score == old(player.score) + points
      ensures !Overlaps(PlayerBox(old(player.State())), ItemBox(old(State()))) ==>
        collected == old(collected) && registry.numCollected == old(registry.numCollected) &&
        player.score == old(player.score)
    {
      if Overlaps(PlayerBox(player.State()), ItemBox(State())) {
        player.score := player.score + points;
        collected := true;
        registry.numCollected := registry.numCollected + 1;
      }
    }
  }

  function ItemStates(s: seq<Collectible>): (r: seq<ItemState>)
    reads s
    ensures |r| == |s| && forall i :: 0 <= i < |s| ==> r[i] == s[i].State()
  {
    seq(|s|, i requires 0 <= i < |s| reads s => s[i].State())
  }

  function EnemyStates(s: seq<Enemy>): (r: seq<EnemyState>)
    reads s
    ensures |r| == |s| && forall i :: 0 <= i < |s| ==> r[i] == s[i].State()
  {
    seq(|s|, i requires 0 <= i < |s| reads s => s[i].State())
  }

  /** The static side of `Collectible`: `Collectible.allCollectibles`,
    * `Collectible.numCollected` and `Collectible.reset`. */
  class CollectibleRegistry {
    var items: seq<Collectible>
    var numCollected: int

    function Value(): Collection
      reads this, items
    {
      Collection(ItemStates(items), numCollected)
    }

    /** No item is listed twice, and the counter equals the number of
      * collected items. */
    ghost predicate Valid()
      reads this, items
    {
      Distinct(items) && CounterMatches(Value())
    }

    constructor()
      ensures items == [] && numCollected == 0 && Valid()
    {
      items := [];
      numCollected := 0;
    }

    /** `Collectible.reset`, with the draws for item `i` as `cells[i]`. */
    method Reset(cells: seq<Cell>)
      requires Distinct(items) && |cells| == |items| && ValidCells(cells)
      modifies this`numCollected, set c | c in items
      ensures Valid()
      ensures Value() == Collection(ResetItems(old(Value()).items, cells), 0)
    {
      for i := 0 to |items|
        invariant forall t :: 0 <= t < i ==>
          items[t].State() == old(items[t].State()).(x := CellX(cells[t]), y := CellY(cells[t]), collected := false)
        invariant forall t :: i <= t < |items| ==> items[t].State() == old(items[t].State())
      {
        items[i].SetRandomPos(cells[i]);
        items[i].collected := false;
      }
      numCollected := 0;
      assert ItemStates(items) == ResetItems(old(Value()).items, cells);
    }
  }

  /** The globals that js/app.js sets up: `allEnemies`, `player` and the collectibles. */
  class World {
    const player: Player
    const allEnemies: seq<Enemy>
    const collectibles: CollectibleRegistry

    /** Every enemy is listed once and rides in its lane; the collectibles
      * are the five created at start-up and their counter is consistent. */
    ghost predicate Valid()
      reads this, allEnemies, collectibles, collectibles.items
    {
      Distinct(allEnemies) && (forall e :: e in allEnemies ==> InLane(e.y)) &&
      collectibles.Valid() && |collectibles.items| == CollectibleCount
    }

    function Snapshot(): WorldState
      reads this, allEnemies, player, collectibles, collectibles.items
    {
      WorldState(EnemyStates(allEnemies), player.State(), collectibles.Value())
    }

    /** The start-up code of js/app.js: the collectibles, the enemies and the
      * player, reset to its defaults. */
    constructor Setup(placements: seq<seq<Cell>>, speedDraws: seq<int>)
      requires |placements| == CollectibleCount
      requires forall i :: 0 <= i < CollectibleCount ==> |placements[i]| == i + 1
      requires forall i, t :: 0 <= i < CollectibleCount && 0 <= t <= i ==> ValidCell(placements[i][t])
      requires |speedDraws| == 3 && forall i :: 0 <= i < 3 ==> IsFloorDraw(speedDraws[i], 100 - 400 + 1)
      ensures Valid()
      ensures player.State() == PlayerState(StartX, StartY, StartLives, 0)
      ensures |allEnemies| == 3
      ensures forall i :: 0 <= i < 3 ==> allEnemies[i].State() == EnemyState(-50.0, i as real * 83.0 + 62.0, RandomSpeed(400, 100, speedDraws[i]))
      ensures collectibles.numCollected == 0
      ensures forall t :: 0 <= t < CollectibleCount ==>
        collectibles.items[t].id == CatalogIds[t] &&
        collectibles.items[t].State() == ItemState(CellX(placements[4][t]), CellY(placements[4][t]), CatalogPoints[t], false)
    {
      var registry := CreateCollectibles(placements);
      var enemies := CreateEnemies(speedDraws);
      var p := new Player();
      p.Reset(true);
      player := p;
      allEnemies := enemies;
      collectibles := registry;
    }
  }

  /** The ids and points of the five collectibles created at start-up. */
  const CatalogIds: seq<string> := ["star", "key", "heart", "green-gem", "blue-gem"]
  const CatalogPoints: seq<int> := [100, 75, 50, 25, 25]

  /** The catalogue has one entry per collectible, no id twice, and every
    * item is worth at least 25 points. */
  lemma CatalogShape()
    ensures |CatalogIds| == |CatalogPoints| == CollectibleCount
    ensures Distinct(CatalogIds)
    ensures forall t :: 0 <= t < CollectibleCount ==> CatalogPoints[t] >= 25
  {
  }

  /** The loop that creates the collectibles: each new one is pushed onto
    * `Collectible.allCollectibles`, then all of them are reset, with the draws
    * `placements[i]` after the i-th push. Only the last reset's draws remain. */
  method CreateCollectibles(placements: seq<seq<Cell>>) returns (registry: CollectibleRegistry)
    requires |placements| == CollectibleCount
    requires forall i :: 0 <= i < CollectibleCount ==> |placements[i]| == i + 1
    requires forall i, t :: 0 <= i < CollectibleCount && 0 <= t <= i ==> ValidCell(placements[i][t])
    ensures fresh(registry) && forall c :: c in registry.items ==> fresh(c)
    ensures registry.Valid() && |registry.items| == CollectibleCount && registry.numCollected == 0
    ensures forall t :: 0 <= t < CollectibleCount ==>
      registry.items[t].id == CatalogIds[t] &&
      registry.items[t].State() == ItemState(CellX(placements[4][t]), CellY(placements[4][t]), CatalogPoints[t], false)
  {
    registry := new CollectibleRegistry();
    for i := 0 to CollectibleCount
      invariant fresh(registry) && forall c :: c in registry.items ==> fresh(c)
      invariant |registry.items| == i && registry.Valid() && registry.numCollected == 0
      invariant forall t :: 0 <= t < i ==> registry.items[t].id == CatalogIds[t] && registry.items[t].points == CatalogPoints[t]
      invariant i > 0 ==> forall t :: 0 <= t < i ==>
        registry.items[t].State() == ItemState(CellX(placements[i - 1][t]), CellY(placements[i - 1][t]), CatalogPoints[t], false)
    {
      ghost var before := registry.items;
      AddCollectible(registry, CatalogIds[i], CatalogPoints[i], placements[i]);
      assert registry.items == before + [registry.items[i]];
    }
  }

  /** One pass of that loop: a new collectible is pushed, then
    * `Collectible.reset` places all of them with the draws `cells`. */
  method AddCollectible(registry: CollectibleRegistry, id: string, points: int, cells: seq<Cell>)
    requires Distinct(registry.items) && |cells| == |registry.items| + 1 && ValidCells(cells)
    modifies registry, (set c | c in registry.items)
    ensures |registry.items| == |old(registry.items)| + 1 && registry.items[..|old(registry.items)|] == old(registry.items)
    ensures fresh(registry.items[|old(registry.items)|])
    ensures registry.items[|old(registry.items)|].id == id && registry.items[|old(registry.items)|].points == points
    ensures registry.Valid() && registry.numCollected == 0
    ensures forall t :: 0 <= t < |registry.items| ==>
      registry.items[t].State() == ItemState(CellX(cells[t]), CellY(cells[t]), registry.items[t].points, false)
  {
    var col := new Collectible(id, points);
    registry.items := registry.items + [col];
    registry.Reset(cells);
  }

  /** The loop that creates the three enemies, one per lane, at x = -50 with
    * `setRandomSpeed(400, 100)`. */
  method CreateEnemies(speedDraws: seq<int>) returns (enemies: seq<Enemy>)
    requires |speedDraws| == 3 && forall i :: 0 <= i < 3 ==> IsFloorDraw(speedDraws[i], 100 - 400 + 1)
    ensures |enemies| == 3 && Distinct(enemies) && forall e :: e in enemies ==> fresh(e) && InLane(e.y)
    ensures forall i :: 0 <= i < 3 ==>
      enemies[i].State() == EnemyState(-50.0, i as real * 83.0 + 62.0, RandomSpeed(400, 100, speedDraws[i]))
  {
    enemies := [];
    for i := 0 to 3
      invariant |enemies| == i && Distinct(enemies) && forall e :: e in enemies ==> fresh(e)
      invariant forall t :: 0 <= t < i ==>
        enemies[t].State() == EnemyState(-50.0, t as real * 83.0 + 62.0, RandomSpeed(400, 100, speedDraws[t]))
    {
      var enemy := new Enemy(-50.0, i as real * 83.0 + 62.0);
      enemy.SetRandomSpeed(400, 100, speedDraws[i]);
      enemies := enemies + [enemy];
    }
    assert forall e :: e in enemies ==> e == enemies[0] || e == enemies[1] || e == enemies[2];
  }
}
