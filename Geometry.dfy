/** Grid cells, the building record shared by every kind of structure, the
    building constants of the game and the rectangle-overlap test. */
module Geometry {

  datatype Position = Position(x: int, y: int)

  datatype Kind = Wall | GoldMine | ElixirCollector | TownHall

  /** One structure. The C++ class hierarchy (Building, ResourceGenerator and the
      four concrete classes) is flattened into one record with a kind tag;
      `currentAmount` is the stored yield, which only generators use. */
  datatype Building = Building(
    kind: Kind,
    pos: Position,
    sizeX: int,
    sizeY: int,
    costGold: int,
    costElixir: int,
    health: int,
    maxInstances: int,
    currentAmount: int)

  /** A 1x1 wall: 10 gold, 100 health, at most 200 of them. */
  function NewWall(x: int, y: int): (b: Building)
    ensures b.kind == Wall && b.pos == Position(x, y)
    ensures b.sizeX == 1 && b.sizeY == 1 && b.costGold == 10 && b.costElixir == 0
    ensures b.health == 100 && b.maxInstances == 200 && b.currentAmount == 0
  {
    Building(Wall, Position(x, y), 1, 1, 10, 0, 100, 200, 0)
  }

  /** A 5x5 gold mine: 100 elixir, 100 health, at most 3, starts empty. */
  function NewGoldMine(x: int, y: int): (b: Building)
    ensures b.kind == GoldMine && b.pos == Position(x, y)
    ensures b.sizeX == 5 && b.sizeY == 5 && b.costGold == 0 && b.costElixir == 100
    ensures b.health == 100 && b.maxInstances == 3 && b.currentAmount == 0
  {
    Building(GoldMine, Position(x, y), 5, 5, 0, 100, 100, 3, 0)
  }

  /** A 5x5 elixir collector: 100 gold, 100 health, at most 3, starts empty. */
  function NewElixirCollector(x: int, y: int): (b: Building)
    ensures b.kind == ElixirCollector && b.pos == Position(x, y)
    ensures b.sizeX == 5 && b.sizeY == 5 && b.costGold == 100 && b.costElixir == 0
    ensures b.health == 100 && b.maxInstances == 3 && b.currentAmount == 0
  {
    Building(ElixirCollector, Position(x, y), 5, 5, 100, 0, 100, 3, 0)
  }

  /** The 5x5 town hall: free, 500 health, a single instance. */
  function NewTownHall(x: int, y: int): (b: Building)
    ensures b.kind == TownHall && b.pos == Position(x, y)
    ensures b.sizeX == 5 && b.sizeY == 5 && b.costGold == 0 && b.costElixir == 0
    ensures b.health == 500 && b.maxInstances == 1 && b.currentAmount == 0
  {
    Building(TownHall, Position(x, y), 5, 5, 0, 0, 500, 1, 0)
  }

  /** The 1x1 probe that the board builds around a cell to ask whether a wall occupies it. */
  function Cell(p: Position): Building {
    Building(Wall, p, 1, 1, 0, 0, 0, 0, 0)
  }

  /** Footprint containment: `p` lies in [x, x+sizeX) x [y, y+sizeY). */
  predicate Covers(b: Building, p: Position) {
    b.pos.x <= p.x < b.pos.x + b.sizeX && b.pos.y <= p.y < b.pos.y + b.sizeY
  }

  /** `Building::takeDamage`: health goes down by `damage`, nothing else changes. */
  function TakeDamage(b: Building, damage: int): (r: Building)
    ensures r.health == b.health - damage
    ensures r.(health := b.health) == b
  {
    b.(health := b.health - damage)
  }

  /** `Board::areBuildingsColliding`: the rectangles are not separated along either axis. */
  predicate Colliding(b1: Building, b2: Building)
    ensures Colliding(b1, b2) <==>
      && b1.pos.x < b2.pos.x + b2.sizeX && b2.pos.x < b1.pos.x + b1.sizeX
      && b1.pos.y < b2.pos.y + b2.sizeY && b2.pos.y < b1.pos.y + b1.sizeY
    ensures HasArea(b1) && HasArea(b2) && b1.pos == b2.pos ==> Colliding(b1, b2)
  {
    var x1Max := b1.pos.x + b1.sizeX;
    var y1Max := b1.pos.y + b1.sizeY;
    var x2Max := b2.pos.x + b2.sizeX;
    var y2Max := b2.pos.y + b2.sizeY;
    var noOverlap := x1Max <= b2.pos.x || x2Max <= b1.pos.x || y1Max <= b2.pos.y || y2Max <= b1.pos.y;
    !noOverlap
  }

  predicate HasArea(b: Building) {
    b.sizeX >= 1 && b.sizeY >= 1
  }

  function Max(a: int, b: int): int {
    if a < b then b else a
  }

  /** For buildings of positive size the collision test is exactly "the two
      half-open footprints share a cell"; the witness is the corner nearest to both. */
  lemma CollidingIffSharedCell(b1: Building, b2: Building)
    requires HasArea(b1) && HasArea(b2)
    ensures Colliding(b1, b2) <==> exists p :: Covers(b1, p) && Covers(b2, p)
  {
    if Colliding(b1, b2) {
      var p := Position(Max(b1.pos.x, b2.pos.x), Max(b1.pos.y, b2.pos.y));
      assert Covers(b1, p) && Covers(b2, p);
    }
  }

  lemma CollidingSymmetric(b1: Building, b2: Building)
    ensures Colliding(b1, b2) == Colliding(b2, b1)
  {
  }

  /** The collision test reads only the position and the size. */
  lemma CollidingByShape(a: Building, b: Building, a': Building, b': Building)
    requires a'.pos == a.pos && a'.sizeX == a.sizeX && a'.sizeY == a.sizeY
    requires b'.pos == b.pos && b'.sizeX == b.sizeX && b'.sizeY == b.sizeY
    ensures Colliding(a', b') == Colliding(a, b)
  {
  }

  /** Two 1x1 structures on the same cell collide; two width-2 footprints at x = 0
      and x = 2 only touch and do not. */
  lemma CollisionExamples()
    ensures Colliding(Cell(Position(3, 4)), NewWall(3, 4))
    ensures !Colliding(Building(Wall, Position(0, 0), 2, 1, 0, 0, 0, 0, 0),
                       Building(Wall, Position(2, 0), 2, 1, 0, 0, 0, 0, 0))
  {
  }
}
