/** The rules of js/app.js on plain values: board geometry, the inset
  * bounding-box test, and what one update of an enemy, the player or a
  * collectible does to the game state. The classes in module App are
  * proved to follow these functions. */
module Rules {
  import opened Utils

  datatype Option<T> = None | Some(value: T)

  // Board geometry, in canvas pixels.
  const RightEdge: real := 505.0
  const BottomEdge: real := 606.0
  const SpriteWidth: real := 101.0
  const SpriteHeight: real := 171.0
  /** Where an enemy re-enters after passing the right edge. */
  const WrapX: real := -101.0
  /** Where a collected item is parked, off the board. */
  const ParkedX: real := -101.0
  const ParkedY: real := -171.0
  /** The player's start cell: centred, on the bottom row. */
  const StartX: real := RightEdge / 2.0 - SpriteWidth / 2.0
  const StartY: real := BottomEdge - SpriteHeight - 20.0

  const StartLives := 3
  const HitPenalty := 25
  const GoalBonus := 100
  /** The number of collectibles created at start-up. */
  const CollectibleCount := 5

  /** A sprite's rectangle with the transparent margins that the collision
    * test ignores. */
  datatype Hitbox = Hitbox(x: real, y: real, width: real, height: real,
                           offsetLeft: real, offsetRight: real, offsetTop: real, offsetBottom: real)

  /** The inset bounding-box test of `Enemy.checkCollisions` and
    * `Collectible.checkCollected`, with `p` the player. */
  predicate Overlaps(p: Hitbox, o: Hitbox) {
    p.x + p.offsetLeft < o.x + (o.width - o.offsetRight) &&
    p.x + (p.width - p.offsetRight) > o.x + o.offsetLeft &&
    p.y + p.offsetTop < o.y + (o.height - o.offsetBottom) &&
    p.y + (p.height - p.offsetBottom) > o.y + o.offsetTop
  }

  /** (px, py) lies strictly inside the visible part of the sprite. */
  predicate Inside(b: Hitbox, px: real, py: real) {
    b.x + b.offsetLeft < px < b.x + b.width - b.offsetRight &&
    b.y + b.offsetTop < py < b.y + b.height - b.offsetBottom
  }

  /** The margins leave a visible part of positive size. */
  predicate NonEmpty(b: Hitbox) {
    b.offsetLeft + b.offsetRight < b.width && b.offsetTop + b.offsetBottom < b.height
  }

  /** For sprites whose visible parts are not empty, as all sprites of the
    * game are, the test holds exactly when those parts share a point. */
  lemma OverlapsIffSharedPoint(p: Hitbox, o: Hitbox)
    requires NonEmpty(p) && NonEmpty(o)
    ensures Overlaps(p, o) <==> exists px, py :: Inside(p, px, py) && Inside(o, px, py)
  {
    if Overlaps(p, o) {
      var left := if p.x + p.offsetLeft < o.x + o.offsetLeft then o.x + o.offsetLeft else p.x + p.offsetLeft;
      var right := if p.x + p.width - p.offsetRight < o.x + o.width - o.offsetRight
                   then p.x + p.width - p.offsetRight else o.x + o.width - o.offsetRight;
      var top := if p.y + p.offsetTop < o.y + o.offsetTop then o.y + o.offsetTop else p.y + p.offsetTop;
      var bottom := if p.y + p.height - p.offsetBottom < o.y + o.height - o.offsetBottom
                    then p.y + p.height - p.offsetBottom else o.y + o.height - o.offsetBottom;
      assert Inside(p, (left + right) / 2.0, (top + bottom) / 2.0);
      assert Inside(o, (left + right) / 2.0, (top + bottom) / 2.0);
    }
  }

  // ---------------------------------------------------------------- player

  datatype PlayerState = PlayerState(x: real, y: real, numLives: int, score: int)

  /** The player's sprite: 101 by 171 with margins 17, 17, 64, 32. */
  function PlayerBox(p: PlayerState): Hitbox
  {
    Hitbox(p.x, p.y, SpriteWidth, SpriteHeight, 17.0, 17.0, 64.0, 32.0)
  }

  /** `Player.reset(resetLives)`. */
  function ResetPlayer(p: PlayerState, resetLives: bool): (r: PlayerState)
    ensures r.x == 202.0 && r.y == 415.0
    ensures resetLives && p.numLives == 0 ==> r.numLives == StartLives && r.score == 0
    ensures !(resetLives && p.numLives == 0) ==> r.numLives == p.numLives && r.score == p.score
    ensures r.numLives != 0 || !resetLives
  {
    var q := p.(x := StartX, y := StartY);
    if resetLives && p.numLives == 0 then q.(numLives := StartLives, score := 0) else q
  }

  /** A hard reset differs from a soft one only when no lives are left. */
  lemma HardResetOnlyWhenOut(p: PlayerState)
    ensures p.numLives != 0 ==> ResetPlayer(p, true) == ResetPlayer(p, false)
    ensures p.numLives == 0 ==> ResetPlayer(p, true) == ResetPlayer(p, false).(numLives := StartLives, score := 0)
  {
  }

  /** `Player.update`: the first matching branch of the clamp / goal chain. */
  function PlayerStep(p: PlayerState): (r: PlayerState)
    ensures 0.0 <= r.x <= RightEdge - SpriteWidth
    ensures r.numLives == p.numLives
    ensures r.score == p.score || r.score == p.score + GoalBonus
    ensures r.score == p.score + GoalBonus <==> 0.0 <= p.x <= RightEdge - SpriteWidth && 0.0 >= p.y
    ensures r.score == p.score + GoalBonus ==> r.x == StartX && r.y == StartY
    ensures r.score == p.score ==> r.x == p.x || r.y == p.y
    ensures p.x < 0.0 ==> r == p.(x := 0.0)
    ensures 0.0 <= p.x && p.x + SpriteWidth > RightEdge ==> r == p.(x := RightEdge - SpriteWidth)
    ensures 0.0 <= p.x <= RightEdge - SpriteWidth && p.y >= BottomEdge - SpriteHeight ==>
      r == p.(y := BottomEdge - SpriteHeight - 20.0)
    ensures 0.0 <= p.x <= RightEdge - SpriteWidth && 0.0 < p.y < BottomEdge - SpriteHeight ==> r == p
  {
    if p.x < 0.0 then p.(x := 0.0)
    else if p.x + SpriteWidth > RightEdge then p.(x := RightEdge - SpriteWidth)
    else if p.y >= BottomEdge - SpriteHeight then p.(y := BottomEdge - SpriteHeight - 20.0)
    else if p.y <= 0.0 then ResetPlayer(p.(score := p.score + GoalBonus), false)
    else p
  }

  datatype Direction = Left | Up | Right | Down

  /** The key-code map of the keyup listener. */
  function AllowedKey(keyCode: int): (r: Option<Direction>)
    ensures r.Some? <==> 37 <= keyCode <= 40
  {
    if keyCode == 37 then Some(Left)
    else if keyCode == 38 then Some(Up)
    else if keyCode == 39 then Some(Right)
    else if keyCode == 40 then Some(Down)
    else None
  }

  /** `Player.handleInput(key)`: a hop of one column sideways or half a row
    * up or down; any other key (or none) does nothing. */
  function MovePlayer(p: PlayerState, key: Option<Direction>): (r: PlayerState)
    ensures r.numLives == p.numLives && r.score == p.score
    ensures key == None ==> r == p
    ensures key == Some(Left) ==> r.x == p.x - 101.0 && r.y == p.y
    ensures key == Some(Right) ==> r.x == p.x + 101.0 && r.y == p.y
    ensures key == Some(Up) ==> r.x == p.x && r.y == p.y - 85.5
    ensures key == Some(Down) ==> r.x == p.x && r.y == p.y + 85.5
  {
    match key
    case None => p
    case Some(Left) => p.(x := p.x - SpriteWidth)
    case Some(Right) => p.(x := p.x + SpriteWidth)
    case Some(Up) => p.(y := p.y - SpriteHeight / 2.0)
    case Some(Down) => p.(y := p.y + SpriteHeight / 2.0)
  }

  function Opposite(d: Direction): Direction {
    match d
    case Left => Right
    case Right => Left
    case Up => Down
    case Down => Up
  }

  /** A hop is undone by the hop in the opposite direction. */
  lemma HopUndone(p: PlayerState, d: Direction)
    ensures MovePlayer(MovePlayer(p, Some(d)), Some(Opposite(d))) == p
  {
  }

  // ---------------------------------------------------------------- enemies

  datatype EnemyState = EnemyState(x: real, y: real, speed: int)

  /** An enemy's sprite: 101 by 171 with margins 2, 3, 78, 28. */
  function EnemyBox(e: EnemyState): Hitbox
  {
    Hitbox(e.x, e.y, SpriteWidth, SpriteHeight, 2.0, 3.0, 78.0, 28.0)
  }

  /** The x position after `Enemy.update(dt)`: moved right by `speed * dt`,
    * and back to the left of the board once past the right edge. */
  function EnemyMove(x: real, speed: int, dt: real): (r: real)
    ensures r <= RightEdge
    ensures x + speed as real * dt <= RightEdge ==> r == x + speed as real * dt
    ensures x + speed as real * dt > RightEdge ==> r == WrapX
  {
    var moved := x + speed as real * dt;
    if moved > RightEdge then WrapX else moved
  }

  /** `Enemy.setRandomSpeed(minSpeed, maxSpeed)` for the draw
    * `Math.floor(Math.random() * (maxSpeed - minSpeed + 1))`. */
  function RandomSpeed(minSpeed: int, maxSpeed: int, draw: int): (r: int)
    requires IsFloorDraw(draw, maxSpeed - minSpeed + 1)
    ensures minSpeed <= maxSpeed ==> minSpeed <= r <= maxSpeed
    ensures maxSpeed < minSpeed ==> maxSpeed < r <= minSpeed
  {
    draw + minSpeed
  }

  /** The speeds given at start-up, `setRandomSpeed(400, 100)`, lie in [101, 400]. */
  lemma SetupSpeedRange(draw: int)
    requires IsFloorDraw(draw, 100 - 400 + 1)
    ensures 101 <= RandomSpeed(400, 100, draw) <= 400
  {
  }

  /** `Enemy.checkCollisions`: on a hit the player loses a life and 25 points
    * and goes back to the start cell; otherwise nothing changes. */
  function Collide(p: PlayerState, enemy: Hitbox): (r: PlayerState)
    ensures Overlaps(PlayerBox(p), enemy) ==>
      r.numLives == p.numLives - 1 && r.score == p.score - HitPenalty && r.x == StartX && r.y == StartY
    ensures !Overlaps(PlayerBox(p), enemy) ==> r == p
  {
    if Overlaps(PlayerBox(p), enemy) then
      ResetPlayer(p.(numLives := p.numLives - 1, score := p.score - HitPenalty), false)
    else p
  }

  /** `Enemy.update(dt)`: move, then test the moved enemy against the player. */
  function EnemyTick(e: EnemyState, p: PlayerState, dt: real): (EnemyState, PlayerState)
  {
    var moved := e.(x := EnemyMove(e.x, e.speed, dt));
    (moved, Collide(p, EnemyBox(moved)))
  }

  /** An enemy's update moves it along its lane without passing the right
    * edge, and costs the player a life exactly when the moved enemy's box
    * overlaps the player's, one life at most. */
  lemma EnemyTickEffect(e: EnemyState, p: PlayerState, dt: real)
    ensures var r := EnemyTick(e, p, dt);
      r.0 == e.(x := EnemyMove(e.x, e.speed, dt)) && r.0.x <= RightEdge &&
      (r.1.numLives < p.numLives <==> Overlaps(PlayerBox(p), EnemyBox(r.0))) &&
      (r.1.numLives == p.numLives || r.1.numLives == p.numLives - 1)
  {
  }

  /** The enemies updated one after the other, each against the player as the
    * earlier ones left it. */
  function EnemiesTick(es: seq<EnemyState>, p: PlayerState, dt: real): (r: (seq<EnemyState>, PlayerState))
    ensures |r.0| == |es|
    ensures forall i :: 0 <= i < |es| ==> r.0[i] == es[i].(x := EnemyMove(es[i].x, es[i].speed, dt))
  {
    if es == [] then ([], p)
    else
      var before := EnemiesTick(es[..|es| - 1], p, dt);
      var last := EnemyTick(es[|es| - 1], before.1, dt);
      (before.0 + [last.0], last.1)
  }

  /** Each hit during the enemies' turn costs one life and 25 points, and a
    * player who was hit ends the turn on the start cell. */
  lemma {:induction false} EnemiesTickPenalty(es: seq<EnemyState>, p: PlayerState, dt: real)
    ensures var q := EnemiesTick(es, p, dt).1;
      p.numLives - |es| <= q.numLives <= p.numLives &&
      q.score == p.score - HitPenalty * (p.numLives - q.numLives) &&
      (q.numLives == p.numLives ==> q == p) &&
      (q.numLives < p.numLives ==> q.x == StartX && q.y == StartY)
  {
    if es != [] {
      EnemiesTickPenalty(es[..|es| - 1], p, dt);
    }
  }

  /** The rows the three enemies are created on. */
  predicate InLane(y: real) {
    y == 62.0 || y == 145.0 || y == 228.0
  }

  /** No enemy in a lane can touch a player on the start cell. */
  lemma StartCellClear(p: PlayerState, e: EnemyState)
    requires p.x == StartX && p.y == StartY && InLane(e.y)
    ensures !Overlaps(PlayerBox(p), EnemyBox(e))
  {
  }

  /** With every enemy in its lane, one round of enemy updates costs at most
    * one life: the hit player lands on the start cell, out of every lane. */
  lemma {:induction false} AtMostOneHit(es: seq<EnemyState>, p: PlayerState, dt: real)
    requires forall i :: 0 <= i < |es| ==> InLane(es[i].y)
    ensures EnemiesTick(es, p, dt).1.numLives >= p.numLives - 1
  {
    if es != [] {
      var init := es[..|es| - 1];
      AtMostOneHit(init, p, dt);
      EnemiesTickPenalty(init, p, dt);
      var q := EnemiesTick(init, p, dt).1;
      if q.numLives < p.numLives {
        var moved := EnemyTick(es[|es| - 1], q, dt).0;
        StartCellClear(q, moved);
      }
    }
  }

  // ---------------------------------------------------------------- collectibles

  /** The draws of `Collectible.setRandomPos`: a row draw in [0, 3) and a
    * column draw in [0, 5). */
  datatype Cell = Cell(rowDraw: int, colDraw: int)

  predicate ValidCell(c: Cell) {
    IsFloorDraw(c.rowDraw, 3) && IsFloorDraw(c.colDraw, 5)
  }

  predicate ValidCells(cells: seq<Cell>) {
    forall i :: 0 <= i < |cells| ==> ValidCell(cells[i])
  }

  /** The x of `setRandomPos`: one of the five columns. */
  function CellX(c: Cell): (x: real)
    requires ValidCell(c)
    ensures x in {0.0, 101.0, 202.0, 303.0, 404.0}
  {
    c.colDraw as real * SpriteWidth
  }

  /** The y of `setRandomPos`: one of the rows 1 to 3, raised by 98. */
  function CellY(c: Cell): (y: real)
    requires ValidCell(c)
    ensures y in {73.0, 244.0, 415.0}
  {
    (c.rowDraw + 1) as real * SpriteHeight - 98.0
  }

  datatype ItemState = ItemState(x: real, y: real, points: int, collected: bool)

  /** A collectible's sprite: 101 by 171 with margins 17, 17, 64, 32. */
  function ItemBox(it: ItemState): Hitbox
  {
    Hitbox(it.x, it.y, SpriteWidth, SpriteHeight, 17.0, 17.0, 64.0, 32.0)
  }

  /** Every sprite's box sits at the sprite's position with a visible part of
    * positive size, so the player meets an enemy or a collectible exactly
    * when their visible parts share a point. */
  lemma SpriteBoxesMeet(p: PlayerState, e: EnemyState, it: ItemState)
    ensures PlayerBox(p).x == p.x && PlayerBox(p).y == p.y && NonEmpty(PlayerBox(p))
    ensures EnemyBox(e).x == e.x && EnemyBox(e).y == e.y && NonEmpty(EnemyBox(e))
    ensures ItemBox(it).x == it.x && ItemBox(it).y == it.y && NonEmpty(ItemBox(it))
    ensures Overlaps(PlayerBox(p), EnemyBox(e)) <==>
      exists px, py :: Inside(PlayerBox(p), px, py) && Inside(EnemyBox(e), px, py)
    ensures Overlaps(PlayerBox(p), ItemBox(it)) <==>
      exists px, py :: Inside(PlayerBox(p), px, py) && Inside(ItemBox(it), px, py)
  {
    OverlapsIffSharedPoint(PlayerBox(p), EnemyBox(e));
    OverlapsIffSharedPoint(PlayerBox(p), ItemBox(it));
  }

  /** The collectibles together with the shared counter `Collectible.numCollected`. */
  datatype Collection = Collection(items: seq<ItemState>, numCollected: int)

  function CollectedFlag(it: ItemState): nat {
    if it.collected then 1 else 0
  }

  /** How many items carry the `collected` flag. */
  function CountCollected(items: seq<ItemState>): (r: nat)
    ensures r <= |items|
  {
    if items == [] then 0 else CollectedFlag(items[0]) + CountCollected(items[1..])
  }

  lemma {:induction false} CountAfterUpdate(items: seq<ItemState>, i: int, v: ItemState)
    requires 0 <= i < |items|
    ensures CountCollected(items[i := v]) == CountCollected(items) - CollectedFlag(items[i]) + CollectedFlag(v)
  {
    if i == 0 {
      assert items[i := v][1..] == items[1..];
    } else {
      CountAfterUpdate(items[1..], i - 1, v);
      assert items[i := v][1..] == items[1..][i - 1 := v];
    }
  }

  lemma {:induction false} CountNoneCollected(items: seq<ItemState>)
    requires forall i :: 0 <= i < |items| ==> !items[i].collected
    ensures CountCollected(items) == 0
  {
    if items != [] {
      CountNoneCollected(items[1..]);
    }
  }

  /** The counter agrees with the flags. */
  predicate CounterMatches(c: Collection) {
    c.numCollected == CountCollected(c.items)
  }

  /** `Collectible.reset`: every item gets a fresh cell and loses its flag. */
  function ResetItems(items: seq<ItemState>, cells: seq<Cell>): (r: seq<ItemState>)
    requires |cells| == |items| && ValidCells(cells)
    ensures |r| == |items|
    ensures forall i :: 0 <= i < |r| ==>
      !r[i].collected && r[i].points == items[i].points &&
      r[i].x in {0.0, 101.0, 202.0, 303.0, 404.0} && r[i].y in {73.0, 244.0, 415.0}
    ensures CountCollected(r) == 0
  {
    var r := seq(|items|, i requires 0 <= i < |items| =>
      items[i].(x := CellX(cells[i]), y := CellY(cells[i]), collected := false));
    CountNoneCollected(r);
    r
  }

  /** `allCollectibles[i].update()`. */
  function CollectibleStep(c: Collection, i: nat, p: PlayerState, cells: seq<Cell>): (r: (Collection, PlayerState))
    requires i < |c.items| && |cells| == |c.items| && ValidCells(cells)
    ensures |r.0.items| == |c.items|
    ensures r.1 == p.(score := r.1.score)
    ensures c.numCollected == CollectibleCount ==>
      r.1 == p && r.0.numCollected == 0 && forall k :: 0 <= k < |r.0.items| ==> !r.0.items[k].collected
    ensures c.numCollected == CollectibleCount ==> r.0 == Collection(ResetItems(c.items, cells), 0)
    ensures c.numCollected != CollectibleCount ==>
      |r.0.items| == |c.items| && forall k :: 0 <= k < |c.items| && k != i ==> r.0.items[k] == c.items[k]
    ensures c.numCollected != CollectibleCount && c.items[i].collected ==>
      r.1 == p && r.0.numCollected == c.numCollected &&
      r.0.items[i] == c.items[i].(x := ParkedX, y := ParkedY)
    ensures c.numCollected != CollectibleCount && !c.items[i].collected ==>
      (Overlaps(PlayerBox(p), ItemBox(c.items[i])) <==> r.0.items[i].collected) &&
      r.0.items[i] == c.items[i].(collected := r.0.items[i].collected)
    ensures c.numCollected != CollectibleCount && !c.items[i].collected && Overlaps(PlayerBox(p), ItemBox(c.items[i])) ==>
      r.0.numCollected == c.numCollected + 1 && r.1.score == p.score + c.items[i].points
    ensures c.numCollected != CollectibleCount && !c.items[i].collected && !Overlaps(PlayerBox(p), ItemBox(c.items[i])) ==>
      r == (c, p)
  {
    var it := c.items[i];
    if c.numCollected == CollectibleCount then
      (Collection(ResetItems(c.items, cells), 0), p)
    else if it.collected then
      (c.(items := c.items[i := it.(x := ParkedX, y := ParkedY)]), p)
    else if Overlaps(PlayerBox(p), ItemBox(it)) then
      (Collection(c.items[i := it.(collected := true)], c.numCollected + 1), p.(score := p.score + it.points))
    else (c, p)
  }

  /** One collectible update keeps the counter equal to the number of flags. */
  lemma CollectibleStepKeepsCounter(c: Collection, i: nat, p: PlayerState, cells: seq<Cell>)
    requires i < |c.items| && |cells| == |c.items| && ValidCells(cells)
    requires CounterMatches(c)
    ensures CounterMatches(CollectibleStep(c, i, p, cells).0)
  {
    var it := c.items[i];
    if c.numCollected != CollectibleCount {
      if it.collected {
        CountAfterUpdate(c.items, i, it.(x := ParkedX, y := ParkedY));
      } else if Overlaps(PlayerBox(p), ItemBox(it)) {
        CountAfterUpdate(c.items, i, it.(collected := true));
      }
    }
  }

  /** The first `n` collectibles updated in order, each against the player as
    * the earlier ones left it (only its score can have changed). */
  function CollectiblesTick(c: Collection, p: PlayerState, cells: seq<Cell>, n: nat): (r: (Collection, PlayerState))
    requires n <= |c.items| && |cells| == |c.items| && ValidCells(cells)
    ensures |r.0.items| == |c.items|
    ensures r.1 == p.(score := r.1.score)
  {
    if n == 0 then (c, p)
    else
      var before := CollectiblesTick(c, p, cells, n - 1);
      CollectibleStep(before.0, n - 1, before.1, cells)
  }

  /** The counter stays equal to the number of flags over a round of
    * updates, so it never exceeds the number of items. */
  lemma {:induction false} CollectiblesTickKeepsCounter(c: Collection, p: PlayerState, cells: seq<Cell>, n: nat)
    requires n <= |c.items| && |cells| == |c.items| && ValidCells(cells)
    requires CounterMatches(c)
    ensures CounterMatches(CollectiblesTick(c, p, cells, n).0)
    ensures 0 <= CollectiblesTick(c, p, cells, n).0.numCollected <= |c.items|
  {
    if n > 0 {
      CollectiblesTickKeepsCounter(c, p, cells, n - 1);
      var before := CollectiblesTick(c, p, cells, n - 1);
      CollectibleStepKeepsCounter(before.0, n - 1, before.1, cells);
    }
  }

  /** The game state the engine advances: `allEnemies`, `player` and the collectibles. */
  datatype WorldState = WorldState(enemies: seq<EnemyState>, player: PlayerState, collection: Collection)
}
