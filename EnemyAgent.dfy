/** The enemy of contour.cpp (`Enemy::update`, lines 180-254): throttled to every
    third call, a sticky target that is hit on later actions, detection that only
    picks the target, and otherwise a greedy step toward the town hall. */
module EnemyAgent {
  import opened Search
  import opened Geometry
  import opened Structures

  const DAMAGE := 10
  /** The enemy acts on every SPEED-th call. */
  const SPEED := 3

  /** `isAttacking` is always `target.Some?` in the source, so only the target is kept.
      `damage` and `speed` never change and are the constants above. */
  datatype Enemy = Enemy(pos: Position, speedCounter: int, target: Option<Handle>)

  function Spawned(x: int, y: int): (e: Enemy)
    ensures e.pos == Position(x, y) && e.speedCounter == 0 && e.target == None
  {
    Enemy(Position(x, y), 0, None)
  }

  predicate TargetValid(e: Enemy, s: Structures) {
    e.target.Some? ==> ValidHandle(e.target.value, s)
  }

  /** A live wall exactly on the cell. */
  predicate WallAt(b: Building, p: Position) {
    b.pos == p && b.health > 0
  }

  /** A live structure whose footprint holds the cell. */
  predicate LiveCover(b: Building, p: Position) {
    Covers(b, p) && b.health > 0
  }

  function WallProbe(p: Position): Building -> bool {
    b => WallAt(b, p)
  }

  function CoverProbe(p: Position): Building -> bool {
    b => LiveCover(b, p)
  }

  predicate NoWallAt(ws: seq<Building>, p: Position) {
    forall j :: 0 <= j < |ws| ==> !WallAt(ws[j], p)
  }

  predicate NoCover(bs: seq<Building>, p: Position) {
    forall j :: 0 <= j < |bs| ==> !LiveCover(bs[j], p)
  }

  /** The scan over walls, then gold mines, then elixir collectors, stopping at the
      first live structure on the cell. */
  function ScanBuildings(p: Position, s: Structures): (r: Option<Handle>)
    ensures r.Some? ==> ValidHandle(r.value, s) && r.value.kind != TownHall
    ensures r.Some? && r.value.kind == Wall ==>
      WallAt(s.walls[r.value.index], p) && NoWallAt(s.walls[..r.value.index], p)
    ensures r.Some? && r.value.kind == GoldMine ==>
      NoWallAt(s.walls, p) && LiveCover(s.goldMines[r.value.index], p)
      && NoCover(s.goldMines[..r.value.index], p)
    ensures r.Some? && r.value.kind == ElixirCollector ==>
      NoWallAt(s.walls, p) && NoCover(s.goldMines, p)
      && LiveCover(s.elixirCollectors[r.value.index], p)
      && NoCover(s.elixirCollectors[..r.value.index], p)
    ensures r.None? ==> NoWallAt(s.walls, p) && NoCover(s.goldMines, p) && NoCover(s.elixirCollectors, p)
  {
    match FirstIndex(s.walls, WallProbe(p))
    case Some(i) => Some(Handle(Wall, i))
    case None =>
      match FirstIndex(s.goldMines, CoverProbe(p))
      case Some(i) => Some(Handle(GoldMine, i))
      case None =>
        match FirstIndex(s.elixirCollectors, CoverProbe(p))
        case Some(i) => Some(Handle(ElixirCollector, i))
        case None => None
  }

  /** The three scanning loops, run one after the other. */
  method Scan(p: Position, s: Structures) returns (r: Option<Handle>)
    ensures r == ScanBuildings(p, s)
  {
    var i := Find(s.walls, WallProbe(p));
    if i.Some? {
      return Some(Handle(Wall, i.value));
    }
    i := Find(s.goldMines, CoverProbe(p));
    if i.Some? {
      return Some(Handle(GoldMine, i.value));
    }
    i := Find(s.elixirCollectors, CoverProbe(p));
    if i.Some? {
      return Some(Handle(ElixirCollector, i.value));
    }
    return None;
  }

  /** Detection in contour.cpp: the building scan, and after it the town hall's
      footprint (whose health is not looked at). */
  function Detect(p: Position, s: Structures): (r: Option<Handle>)
    ensures r.Some? ==> ValidHandle(r.value, s)
    ensures ScanBuildings(p, s).Some? ==> r == ScanBuildings(p, s)
    ensures ScanBuildings(p, s).None? ==>
      (r.Some? <==> Covers(s.townhall, p)) && (r.Some? ==> r.value == Handle(TownHall, 0))
  {
    match ScanBuildings(p, s)
    case Some(h) => Some(h)
    case None => if Covers(s.townhall, p) then Some(Handle(TownHall, 0)) else None
  }

  /** One cell toward `t` on each axis independently (or none on an axis already equal). */
  function StepToward(p: Position, t: Position): (r: Position)
    ensures Abs(r.x - p.x) <= 1 && Abs(r.y - p.y) <= 1
    ensures Abs(r.x - t.x) <= Abs(p.x - t.x) && Abs(r.y - t.y) <= Abs(p.y - t.y)
    ensures r == p <==> p == t
  {
    Position(
      if p.x < t.x then p.x + 1 else if p.x > t.x then p.x - 1 else p.x,
      if p.y < t.y then p.y + 1 else if p.y > t.y then p.y - 1 else p.y)
  }

  function Abs(a: int): nat {
    if a < 0 then -a else a
  }

  /** Chebyshev distance: the number of diagonal-capable steps between two cells. */
  function Dist(p: Position, q: Position): nat {
    Max(Abs(p.x - q.x), Abs(p.y - q.y))
  }

  /** Each coordinate gets exactly one closer (or stays when already equal), so the
      Chebyshev distance drops by exactly one until the cell is reached. */
  lemma StepTowardCloser(p: Position, t: Position)
    ensures Abs(StepToward(p, t).x - t.x) == Max(Abs(p.x - t.x) - 1, 0)
    ensures Abs(StepToward(p, t).y - t.y) == Max(Abs(p.y - t.y) - 1, 0)
    ensures p != t ==> Dist(StepToward(p, t), t) == Dist(p, t) - 1
    ensures p == t ==> StepToward(p, t) == p
  {
  }

  datatype Turn = Turn(enemy: Enemy, site: Structures)

  /** `Enemy::update` of contour.cpp. */
  function Step(e: Enemy, t: Position, s: Structures): (r: Turn)
    requires TargetValid(e, s)
    ensures SameLayout(s, r.site) && TargetValid(r.enemy, r.site)
    ensures r.site.townhall.health <= s.townhall.health
    ensures 0 <= e.speedCounter < SPEED ==> 0 <= r.enemy.speedCounter < SPEED
  {
    var counter := e.speedCounter + 1;
    if counter < SPEED then Turn(e.(speedCounter := counter), s)
    else
      var e0 := e.(speedCounter := 0);
      match e.target
      case Some(h) =>
        var s' := DamageAt(s, h, DAMAGE);
        assert ValidHandle(Handle(TownHall, 0), s);
        Turn(if At(s', h).health <= 0 then e0.(target := None) else e0, s')
      case None =>
        match Detect(e.pos, s)
        case Some(h) => Turn(e0.(target := Some(h)), s)
        case None => Turn(e0.(pos := StepToward(e.pos, t)), s)
  }

  /** The update as the source runs it: counter, sticky attack, the scanning loops,
      the town-hall test, then the move. */
  method Update(e: Enemy, t: Position, s: Structures) returns (e': Enemy, s': Structures)
    requires TargetValid(e, s)
    ensures Turn(e', s') == Step(e, t, s)
  {
    var counter := e.speedCounter + 1;
    if counter < SPEED {
      return e.(speedCounter := counter), s;
    }
    var e0 := e.(speedCounter := 0);
    if e.target.Some? {
      var h := e.target.value;
      s' := DamageAt(s, h, DAMAGE);
      e' := if At(s', h).health <= 0 then e0.(target := None) else e0;
      return;
    }
    var hit := Scan(e.pos, s);
    if hit.Some? {
      return e0.(target := hit), s;
    }
    if Covers(s.townhall, e.pos) {
      return e0.(target := Some(Handle(TownHall, 0))), s;
    }
    return e0.(pos := StepToward(e.pos, t)), s;
  }

  predicate Acts(e: Enemy) {
    e.speedCounter + 1 >= SPEED
  }

  /** A call that does not act only advances the counter. */
  lemma Idle(e: Enemy, t: Position, s: Structures)
    requires TargetValid(e, s) && !Acts(e)
    ensures Step(e, t, s) == Turn(e.(speedCounter := e.speedCounter + 1), s)
  {
  }

  /** Starting from 0, the enemy acts on every third call exactly. */
  lemma ThirdCallActs(e: Enemy, t: Position, s: Structures)
    requires TargetValid(e, s) && e.speedCounter == 0
    ensures var r1 := Step(e, t, s); var r2 := Step(r1.enemy, t, r1.site);
      r1.site == s && r2.site == s && r2.enemy == e.(speedCounter := 2) && Acts(r2.enemy)
  {
  }

  /** With a target, an acting call deals exactly DAMAGE to it, to nothing else, does
      not move, and drops the target once its health is at or below 0. */
  lemma StickyStrike(e: Enemy, t: Position, s: Structures, h: Handle)
    requires TargetValid(e, s) && Acts(e) && e.target == Some(h)
    ensures var r := Step(e, t, s);
      && r.site == DamageAt(s, h, DAMAGE)
      && At(r.site, h).health == At(s, h).health - DAMAGE
      && r.enemy.pos == e.pos && r.enemy.speedCounter == 0
      && r.enemy.target == (if At(r.site, h).health <= 0 then None else Some(h))
  {
  }

  /** Without a target, finding a structure only records it: no damage on this action. */
  lemma DetectionOnly(e: Enemy, t: Position, s: Structures, h: Handle)
    requires Acts(e) && e.target == None && Detect(e.pos, s) == Some(h)
    ensures Step(e, t, s) == Turn(e.(speedCounter := 0, target := Some(h)), s)
  {
  }

  /** A live wall on the cell is chosen over any mine, collector or the town hall. */
  lemma WallsFirst(p: Position, s: Structures, i: nat)
    requires i < |s.walls| && WallAt(s.walls[i], p)
    ensures Detect(p, s).Some? && Detect(p, s).value.kind == Wall
  {
  }

  /** With nothing to attack, the enemy takes one step toward `t` and touches nothing. */
  lemma Advance(e: Enemy, t: Position, s: Structures)
    requires Acts(e) && e.target == None && Detect(e.pos, s) == None
    ensures Step(e, t, s) == Turn(e.(speedCounter := 0, pos := StepToward(e.pos, t)), s)
  {
  }

  /** Heading for the town hall's origin, a moving enemy is outside the town hall,
      so each move brings it strictly closer. */
  lemma ApproachesTownHall(e: Enemy, s: Structures)
    requires Acts(e) && e.target == None && Detect(e.pos, s) == None && HasArea(s.townhall)
    ensures Dist(Step(e, s.townhall.pos, s).enemy.pos, s.townhall.pos) < Dist(e.pos, s.townhall.pos)
  {
    assert Covers(s.townhall, s.townhall.pos);
    StepTowardCloser(e.pos, s.townhall.pos);
  }
}
