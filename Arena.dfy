/** `Board` of contour.cpp: the player, the ledger, the town hall, the walls, mines,
    collectors and enemies, with placement, movement, collection and the tick. */
module Arena {
  import opened Search
  import opened Geometry
  import opened Ledger
  import opened Structures
  import opened EnemyAgent
  import Generator

  const WIDTH := 147
  const HEIGHT := 33
  const MARGIN := 30
  const SPAWN_RATE := 30

  /** Where the player can stand: rows 1 to HEIGHT-2, and the even columns from
      MARGIN+2 (the start column) to WIDTH-3, since a move is two columns wide. */
  predicate PlayerInBounds(p: Position) {
    1 <= p.y <= HEIGHT - 2 && MARGIN + 2 <= p.x <= WIDTH - 3 && p.x % 2 == 0
  }

  /** The cell `tryMovePlayer` aims for: one row or two columns, unless at the edge;
      None for a direction it does not know. */
  function Destination(p: Position, direction: char): (r: Option<Position>)
    ensures r.Some? <==> direction in "UDLR"
    ensures r.Some? ==> (r.value.x == p.x && Abs(r.value.y - p.y) <= 1)
                        || (r.value.y == p.y && Abs(r.value.x - p.x) == 2)
  {
    match direction
    case 'U' => Some(if p.y > 1 then p.(y := p.y - 1) else p)
    case 'D' => Some(if p.y < HEIGHT - 2 then p.(y := p.y + 1) else p)
    case 'L' => Some(if p.x > MARGIN + 2 then p.(x := p.x - 2) else p)
    case 'R' => Some(if p.x < WIDTH - 4 then p.(x := p.x + 2) else p)
    case _ => None
  }

  /** Moves never leave the playfield, and only the four direction keys are known. */
  lemma DestinationInBounds(p: Position, direction: char)
    requires PlayerInBounds(p)
    ensures Destination(p, direction).None? <==> direction !in "UDLR"
    ensures Destination(p, direction).Some? ==> PlayerInBounds(Destination(p, direction).value)
  {
  }

  /** `isPositionOccupied`: a wall overlaps the 1x1 probe on the cell. */
  predicate Occupied(p: Position, walls: seq<Building>)
    ensures Occupied(p, walls) <==> exists i :: 0 <= i < |walls| && Covers(walls[i], p)
  {
    exists i :: 0 <= i < |walls| && Colliding(Cell(p), walls[i])
  }

  /** A generator the player stands in whose `collect` would yield something. */
  function HarvestProbe(p: Position): Building -> bool {
    b => Covers(b, p) && Generator.IsFull(b)
  }

  /** `updateResources` on one sequence: every generator updated in place. */
  function UpdatedAll(bs: seq<Building>): (r: seq<Building>)
    ensures |r| == |bs|
    ensures forall i :: 0 <= i < |r| ==> r[i].(currentAmount := bs[i].currentAmount) == bs[i]
    ensures forall i :: 0 <= i < |r| ==> Generator.IsFull(bs[i]) ==> r[i] == bs[i]
  {
    seq(|bs|, i requires 0 <= i < |bs| => Generator.Update(bs[i]))
  }

  /** The enemies after the counter part of `spawnEnemy`: one more, on the left edge
      (x = MARGIN+1) or the right edge (x = WIDTH-2), when the counter reaches SPAWN_RATE. */
  function Spawn(es: seq<Enemy>, counter: int, leftSide: bool, row: int): (r: seq<Enemy>)
    ensures counter + 1 >= SPAWN_RATE ==> |r| == |es| + 1 && r[..|es|] == es
    ensures counter + 1 >= SPAWN_RATE ==>
      r[|es|] == Spawned(if leftSide then MARGIN + 1 else WIDTH - 2, row)
    ensures counter + 1 < SPAWN_RATE ==> r == es
  {
    if counter + 1 >= SPAWN_RATE then es + [Spawned(if leftSide then MARGIN + 1 else WIDTH - 2, row)]
    else es
  }

  predicate EnemiesOk(es: seq<Enemy>, s: Structures) {
    forall i :: 0 <= i < |es| ==> TargetValid(es[i], s) && 0 <= es[i].speedCounter < SPEED
  }

  datatype Sweep = Sweep(enemies: seq<Enemy>, site: Structures)

  /** A target stays valid while only health values change. */
  lemma TargetKept(e: Enemy, s: Structures, s': Structures)
    requires SameLayout(s, s') && TargetValid(e, s)
    ensures TargetValid(e, s')
  {
  }

  /** The loop of `updateEnemies`: every enemy in order, each seeing what the ones
      before it did to the structures. */
  function RunEnemies(es: seq<Enemy>, t: Position, s: Structures): (r: Sweep)
    requires forall i :: 0 <= i < |es| ==> TargetValid(es[i], s)
    ensures |r.enemies| == |es| && SameLayout(s, r.site)
    ensures forall i :: 0 <= i < |es| ==> TargetValid(r.enemies[i], r.site)
    ensures r.site.townhall.health <= s.townhall.health
    ensures es == [] ==> r.site == s
    decreases |es|
  {
    if es == [] then Sweep([], s)
    else
      var front := RunEnemies(es[..|es| - 1], t, s);
      TargetKept(es[|es| - 1], s, front.site);
      var turn := EnemyAgent.Step(es[|es| - 1], t, front.site);
      Sweep(front.enemies + [turn.enemy], turn.site)
  }

  /** The run keeps every enemy's target valid and its counter in [0, SPEED). */
  lemma {:induction false} RunEnemiesOk(es: seq<Enemy>, t: Position, s: Structures)
    requires EnemiesOk(es, s)
    ensures EnemiesOk(RunEnemies(es, t, s).enemies, RunEnemies(es, t, s).site)
    decreases |es|
  {
    if es != [] {
      var init := es[..|es| - 1];
      assert EnemiesOk(init, s);
      RunEnemiesOk(init, t, s);
      var front := RunEnemies(init, t, s);
      TargetKept(es[|es| - 1], s, front.site);
      var turn := EnemyAgent.Step(es[|es| - 1], t, front.site);
      forall i | 0 <= i < |front.enemies| ensures TargetValid(front.enemies[i], turn.site) {
        TargetKept(front.enemies[i], front.site, turn.site);
      }
    }
  }

  /** One more enemy at the end of the run acts on what the run before it left. */
  lemma RunEnemiesSnoc(es: seq<Enemy>, i: nat, t: Position, s: Structures)
    requires i < |es| && forall j :: 0 <= j < |es| ==> TargetValid(es[j], s)
    ensures TargetValid(es[i], RunEnemies(es[..i], t, s).site)
    ensures var front := RunEnemies(es[..i], t, s);
      var turn := EnemyAgent.Step(es[i], t, front.site);
      RunEnemies(es[..i + 1], t, s) == Sweep(front.enemies + [turn.enemy], turn.site)
  {
    assert es[..i + 1][..i] == es[..i];
    TargetKept(es[i], s, RunEnemies(es[..i], t, s).site);
  }

  /** The loop of `updateEnemies` on the enemies and structures it works through:
      each enemy acts in turn on what the ones before it left, and `over` is set once
      the town hall's health has dropped to 0 or below after some enemy's turn. */
  method ActAll(es: seq<Enemy>, t: Position, s: Structures) returns (es': seq<Enemy>, s': Structures, over: bool)
    requires forall i :: 0 <= i < |es| ==> TargetValid(es[i], s)
    ensures Sweep(es', s') == RunEnemies(es, t, s)
    ensures over <==> |es| > 0 && s'.townhall.health <= 0
    ensures |es| == 0 ==> s' == s
    ensures s'.townhall.health <= s.townhall.health
  {
    es', s', over := es, s, false;
    var i := 0;
    while i < |es|
      invariant 0 <= i <= |es| == |es'|
      invariant forall j :: i <= j < |es| ==> es'[j] == es[j]
      invariant RunEnemies(es[..i], t, s) == Sweep(es'[..i], s')
      invariant over <==> i > 0 && s'.townhall.health <= 0
    {
      RunEnemiesSnoc(es, i, t, s);
      var e, site := EnemyAgent.Update(es'[i], t, s');
      es', s' := es'[i := e], site;
      if s'.townhall.health <= 0 {
        over := true;
      }
      assert es'[..i + 1] == es'[..i] + [e];
      i := i + 1;
    }
    assert es[..i] == es && es'[..i] == es';
  }

  /** An enemy's target after the cleanup: remapped to the survivor's new index, or
      cleared when its structure was removed. */
  function Retarget(e: Enemy, s: Structures): (r: Enemy)
    requires TargetValid(e, s)
    ensures r.pos == e.pos && r.speedCounter == e.speedCounter
    ensures TargetValid(r, Prune(s))
    ensures r.target.None? <==> e.target.None? || (e.target.value.kind != TownHall && At(s, e.target.value).health <= 0)
    ensures r.target.Some? ==> At(Prune(s), r.target.value) == At(s, e.target.value)
  {
    if e.target.None? then e
    else
      RemapSound(s, e.target.value);
      e.(target := Remap(s, e.target.value))
  }

  function RetargetAll(es: seq<Enemy>, s: Structures): (r: seq<Enemy>)
    requires forall i :: 0 <= i < |es| ==> TargetValid(es[i], s)
    ensures |r| == |es|
    ensures forall i :: 0 <= i < |r| ==> TargetValid(r[i], Prune(s))
    ensures forall i :: 0 <= i < |r| ==> r[i].pos == es[i].pos && r[i].speedCounter == es[i].speedCounter
  {
    seq(|es|, i requires 0 <= i < |es| => Retarget(es[i], s))
  }

  /** The cleanup at the end of `updateEnemies`: destroyed walls, mines and collectors
      removed, and the enemies' targets remapped to what remains. */
  function Cleanup(sw: Sweep): (r: Sweep)
    requires forall i :: 0 <= i < |sw.enemies| ==> TargetValid(sw.enemies[i], sw.site)
    ensures |r.enemies| == |sw.enemies| && r.site.townhall == sw.site.townhall
    ensures forall i :: 0 <= i < |r.enemies| ==> TargetValid(r.enemies[i], r.site)
    ensures forall i :: 0 <= i < |r.enemies| ==>
      r.enemies[i].pos == sw.enemies[i].pos && r.enemies[i].speedCounter == sw.enemies[i].speedCounter
  {
    Sweep(RetargetAll(sw.enemies, sw.site), Prune(sw.site))
  }

  predicate AllAlive(bs: seq<Building>) {
    forall i :: 0 <= i < |bs| ==> bs[i].health > 0
  }

  predicate AmountsOk(bs: seq<Building>) {
    forall i :: 0 <= i < |bs| ==> Generator.AmountOk(bs[i].currentAmount)
  }

  lemma AmountsKept(a: seq<Building>, b: seq<Building>)
    requires HealthOnly(a, b) && AmountsOk(a)
    ensures AmountsOk(b)
  {
    forall i | 0 <= i < |b| ensures Generator.AmountOk(b[i].currentAmount) {
      assert a[i].(health := b[i].health) == b[i];
    }
  }

  lemma AmountsOfLive(bs: seq<Building>)
    requires AmountsOk(bs)
    ensures AmountsOk(Live(bs))
  {
    var r := Live(bs);
    forall i | 0 <= i < |r| ensures Generator.AmountOk(r[i].currentAmount) {
      var k := LiveOrigin(bs, i);
      LiveIndexSound(bs, k);
    }
  }

  /** Everything the board keeps true of its structures: the instance caps (200
      walls, 3 mines, 3 collectors), no destroyed wall, mine or collector left in
      place, stored amounts on the 5-step scale, no two structures overlapping, and
      the one town hall at its fixed place and size. */
  ghost predicate SiteOk(s: Structures) {
    && |s.walls| <= 200 && |s.goldMines| <= 3 && |s.elixirCollectors| <= 3
    && AllAlive(s.walls) && AllAlive(s.goldMines) && AllAlive(s.elixirCollectors)
    && AmountsOk(s.goldMines) && AmountsOk(s.elixirCollectors)
    && Separated(s)
    && s.townhall.(health := 500) == NewTownHall(80, HEIGHT / 2)
  }

  /** `b` is `a` with some stored amounts changed and nothing else. */
  predicate AmountOnly(a: seq<Building>, b: seq<Building>) {
    |a| == |b| && forall i :: 0 <= i < |a| ==> b[i].(currentAmount := a[i].currentAmount) == a[i]
  }

  lemma AmountOnlyShapes(a: seq<Building>, b: seq<Building>)
    requires AmountOnly(a, b)
    ensures ShapesAgree(a, b) && (AllAlive(a) ==> AllAlive(b))
  {
    forall i | 0 <= i < |a| ensures SameShape(a[i], b[i]) && b[i].health == a[i].health {
      assert b[i].(currentAmount := a[i].currentAmount) == a[i];
    }
  }

  /** Changing stored amounts, and keeping them on the scale, keeps the site sound. */
  lemma SiteKept(s: Structures, s': Structures)
    requires SiteOk(s) && s'.walls == s.walls && s'.townhall == s.townhall
    requires AmountOnly(s.goldMines, s'.goldMines) && AmountOnly(s.elixirCollectors, s'.elixirCollectors)
    requires AmountsOk(s'.goldMines) && AmountsOk(s'.elixirCollectors)
    ensures SiteOk(s')
  {
    AmountOnlyShapes(s.goldMines, s'.goldMines);
    AmountOnlyShapes(s.elixirCollectors, s'.elixirCollectors);
    SeparatedKept(s, s');
  }

  /** Health changes followed by the cleanup keep the site sound. */
  lemma SitePruned(s0: Structures, s1: Structures)
    requires SiteOk(s0) && SameLayout(s0, s1)
    ensures SiteOk(Prune(s1))
  {
    LayoutHasShapes(s0, s1);
    SeparatedKept(s0, s1);
    SeparatedPrune(s1);
    AmountsKept(s0.goldMines, s1.goldMines);
    AmountsKept(s0.elixirCollectors, s1.elixirCollectors);
    AmountsOfLive(s1.goldMines);
    AmountsOfLive(s1.elixirCollectors);
  }

  /** A placement that overlaps nothing, is alive, holds an amount on the scale and
      stays under its cap keeps the site sound. */
  lemma SiteAdd(s: Structures, k: Kind, c: Building)
    requires SiteOk(s) && k != TownHall && Buildable(c, s) && c.health > 0
    requires Generator.AmountOk(c.currentAmount)
    requires |Group(s, k)| < if k == Wall then 200 else 3
    ensures SiteOk(Add(s, k, c))
  {
    SeparatedAdd(s, k, c);
  }

  /** Emptying one generator keeps the others and the scale. */
  lemma AmountsAfterCollect(bs: seq<Building>, k: nat)
    requires AmountsOk(bs) && k < |bs|
    ensures AmountOnly(bs, bs[k := Generator.Collect(bs[k]).site])
    ensures AmountsOk(bs[k := Generator.Collect(bs[k]).site])
  {
  }

  lemma AmountsAfterUpdate(bs: seq<Building>)
    requires AmountsOk(bs)
    ensures AmountOnly(bs, UpdatedAll(bs)) && AmountsOk(UpdatedAll(bs))
  {
  }

  /** One loop of `collectResources` over the generators `bs`: the first one that
      holds `p` and yields something is emptied and the loop stops; a covering one
      that is not full is left as it was. */
  method CollectFirst(bs: seq<Building>, p: Position) returns (bs': seq<Building>, collected: int)
    ensures var k := FirstIndex(bs, HarvestProbe(p));
      if k.Some? then
        bs' == bs[k.value := Generator.Collect(bs[k.value]).site]
        && collected == Generator.Collect(bs[k.value]).collected && collected > 0
      else bs' == bs && collected == 0
  {
    bs' := bs;
    for i := 0 to |bs|
      invariant bs' == bs
      invariant forall j :: 0 <= j < i ==> !HarvestProbe(p)(bs[j])
    {
      if Covers(bs'[i], p) {
        var harvest := Generator.Collect(bs'[i]);
        bs' := bs'[i := harvest.site];
        if harvest.collected > 0 {
          return bs', harvest.collected;
        }
      }
    }
    return bs', 0;
  }

  /** One loop of `updateResources`: each generator updated in place, in order. */
  method UpdateEach(bs: seq<Building>) returns (bs': seq<Building>)
    ensures bs' == UpdatedAll(bs)
  {
    bs' := bs;
    for i := 0 to |bs|
      invariant |bs'| == |bs|
      invariant forall j :: 0 <= j < i ==> bs'[j] == Generator.Update(bs[j])
      invariant forall j :: i <= j < |bs| ==> bs'[j] == bs[j]
    {
      bs' := bs'[i := Generator.Update(bs'[i])];
    }
  }

  /** Collecting from the first full generator under the player changes one stored
      amount and yields exactly 100. */
  lemma CollectFirstAmounts(bs: seq<Building>, p: Position)
    requires AmountsOk(bs)
    ensures var k := FirstIndex(bs, HarvestProbe(p));
      k.Some? ==> AmountOnly(bs, bs[k.value := Generator.Collect(bs[k.value]).site])
                  && AmountsOk(bs[k.value := Generator.Collect(bs[k.value]).site])
                  && Generator.Collect(bs[k.value]).collected == Generator.CAPACITY
  {
    var k := FirstIndex(bs, HarvestProbe(p));
    if k.Some? {
      AmountsAfterCollect(bs, k.value);
    }
  }

  lemma CleanupOk(s0: Structures, sw: Sweep)
    requires SiteOk(s0) && SameLayout(s0, sw.site) && EnemiesOk(sw.enemies, sw.site)
    ensures SiteOk(Cleanup(sw).site) && EnemiesOk(Cleanup(sw).enemies, Cleanup(sw).site)
    ensures Cleanup(sw).site.townhall == sw.site.townhall
  {
    SitePruned(s0, sw.site);
    var r := RetargetAll(sw.enemies, sw.site);
    forall i | 0 <= i < |r| ensures TargetValid(r[i], Prune(sw.site)) {
      if sw.enemies[i].target.Some? {
        RemapSound(sw.site, sw.enemies[i].target.value);
      }
    }
  }

  /** `updateEnemies` on the values it works through: the enemies act, then destroyed
      walls, mines and collectors are removed and the targets follow the survivors;
      `over` is set once some enemy's turn left the town hall at 0 health or below. */
  method EnemyPhase(es: seq<Enemy>, t: Position, s: Structures)
    returns (es': seq<Enemy>, walls: seq<Building>, goldMines: seq<Building>,
             elixirCollectors: seq<Building>, townhall: Building, over: bool)
    requires SiteOk(s) && EnemiesOk(es, s)
    ensures Sweep(es', Structures(walls, goldMines, elixirCollectors, townhall)) == Cleanup(RunEnemies(es, t, s))
    ensures over <==> |es| > 0 && townhall.health <= 0
    ensures SiteOk(Structures(walls, goldMines, elixirCollectors, townhall))
    ensures EnemiesOk(es', Structures(walls, goldMines, elixirCollectors, townhall))
    ensures townhall.health <= s.townhall.health && (|es| == 0 ==> townhall == s.townhall)
  {
    var acted, s1, o := ActAll(es, t, s);
    RunEnemiesOk(es, t, s);
    CleanupOk(s, Sweep(acted, s1));
    var cleaned := Cleanup(Sweep(acted, s1));
    var site := cleaned.site;
    assert site == Structures(site.walls, site.goldMines, site.elixirCollectors, site.townhall);
    return cleaned.enemies, site.walls, site.goldMines, site.elixirCollectors, site.townhall, o;
  }

  /** The two loops of `collectResources` on the structures: the first full mine and
      the first full collector under the player are emptied, each yielding 100 or,
      when there is none, 0. */
  method CollectAt(s: Structures, p: Position)
    returns (mines: seq<Building>, collectors: seq<Building>, gold: int, elixir: int)
    requires SiteOk(s)
    ensures SiteOk(Structures(s.walls, mines, collectors, s.townhall))
    ensures |mines| == |s.goldMines| && |collectors| == |s.elixirCollectors|
    ensures var k := FirstIndex(s.goldMines, HarvestProbe(p));
      if k.Some? then
        mines == s.goldMines[k.value := Generator.Collect(s.goldMines[k.value]).site]
        && gold == Generator.CAPACITY
      else mines == s.goldMines && gold == 0
    ensures var k := FirstIndex(s.elixirCollectors, HarvestProbe(p));
      if k.Some? then
        collectors == s.elixirCollectors[k.value := Generator.Collect(s.elixirCollectors[k.value]).site]
        && elixir == Generator.CAPACITY
      else collectors == s.elixirCollectors && elixir == 0
  {
    CollectFirstAmounts(s.goldMines, p);
    CollectFirstAmounts(s.elixirCollectors, p);
    mines, gold := CollectFirst(s.goldMines, p);
    collectors, elixir := CollectFirst(s.elixirCollectors, p);
    SiteKept(s, Structures(s.walls, mines, collectors, s.townhall));
  }

  /** The direction switch of `tryMovePlayer`: the coordinate change of a key, kept
      only inside the playing field; `None` for any other key. */
  method NextCell(p: Position, direction: char) returns (r: Option<Position>)
    ensures r == Destination(p, direction)
  {
    var newPos := p;
    match direction {
      case 'U' => if newPos.y > 1 { newPos := newPos.(y := newPos.y - 1); }
      case 'D' => if newPos.y < HEIGHT - 2 { newPos := newPos.(y := newPos.y + 1); }
      case 'L' => if newPos.x > MARGIN + 2 { newPos := newPos.(x := newPos.x - 2); }
      case 'R' => if newPos.x < WIDTH - 4 { newPos := newPos.(x := newPos.x + 2); }
      case _ => return None;
    }
    return Some(newPos);
  }

  class Board {
    var player: Position
    const ledger: Resources
    var townhall: Building
    var walls: seq<Building>
    var goldMines: seq<Building>
    var elixirCollectors: seq<Building>
    var enemies: seq<Enemy>
    var spawnCounter: int
    var gameOver: bool

    function World(): Structures
      reads this
    {
      Structures(walls, goldMines, elixirCollectors, townhall)
    }

    ghost predicate Valid()
      reads this, ledger
    {
      && ledger.gold >= 0 && ledger.elixir >= 0
      && PlayerInBounds(player)
      && 0 <= spawnCounter < SPAWN_RATE
      && SiteOk(World())
      && EnemiesOk(enemies, World())
      && (gameOver <==> townhall.health <= 0)
    }

    constructor ()
      ensures Valid() && fresh(ledger)
      ensures player == Position(MARGIN + 2, HEIGHT / 2)
      ensures ledger.gold == 400 && ledger.elixir == 400
      ensures townhall == NewTownHall(80, HEIGHT / 2)
      ensures walls == [] && goldMines == [] && elixirCollectors == [] && enemies == []
      ensures spawnCounter == 0 && !gameOver
    {
      player := Position(MARGIN + 2, HEIGHT / 2);
      ledger := new Resources(400, 400);
      townhall := NewTownHall(80, HEIGHT / 2);
      walls, goldMines, elixirCollectors, enemies := [], [], [], [];
      spawnCounter := 0;
      gameOver := false;
    }

    /** `isPositionOccupied`, with no building ignored. */
    method IsPositionOccupied(p: Position) returns (occupied: bool)
      ensures occupied <==> Occupied(p, walls)
    {
      for i := 0 to |walls|
        invariant forall j :: 0 <= j < i ==> !Colliding(Cell(p), walls[j])
      {
        if Colliding(Cell(p), walls[i]) {
          return true;
        }
      }
      return false;
    }

    /** `CanBuild`, with no building ignored: the candidate overlaps no wall, mine,
        collector, nor the town hall. */
    method CanBuild(c: Building) returns (ok: bool)
      ensures ok <==> Buildable(c, World())
    {
      var s := World();
      for i := 0 to |walls|
        invariant forall j :: 0 <= j < i ==> !Colliding(c, walls[j])
      {
        if Colliding(c, walls[i]) {
          assert ValidHandle(Handle(Wall, i), s) && At(s, Handle(Wall, i)) == walls[i];
          return false;
        }
      }
      for i := 0 to |goldMines|
        invariant forall j :: 0 <= j < i ==> !Colliding(c, goldMines[j])
      {
        if Colliding(c, goldMines[i]) {
          assert ValidHandle(Handle(GoldMine, i), s) && At(s, Handle(GoldMine, i)) == goldMines[i];
          return false;
        }
      }
      for i := 0 to |elixirCollectors|
        invariant forall j :: 0 <= j < i ==> !Colliding(c, elixirCollectors[j])
      {
        if Colliding(c, elixirCollectors[i]) {
          assert ValidHandle(Handle(ElixirCollector, i), s)
            && At(s, Handle(ElixirCollector, i)) == elixirCollectors[i];
          return false;
        }
      }
      if Colliding(c, townhall) {
        assert ValidHandle(Handle(TownHall, 0), s) && At(s, Handle(TownHall, 0)) == townhall;
        return false;
      }
      return true;
    }

    /** `tryMovePlayer`: false for an unknown direction or a wall on the target cell;
        otherwise the player moves there (possibly its own cell at an edge) and it is true. */
    method TryMovePlayer(direction: char) returns (moved: bool)
      requires Valid()
      modifies this`player
      ensures Valid()
      ensures moved <==> Destination(old(player), direction).Some?
                         && !Occupied(Destination(old(player), direction).value, walls)
      ensures player == if moved then Destination(old(player), direction).value else old(player)
    {
      var dest := NextCell(player, direction);
      if dest.None? {
        return false;
      }
      var newPos := dest.value;
      DestinationInBounds(player, direction);
      var occupied := IsPositionOccupied(newPos);
      if !occupied {
        player := newPos;
        return true;
      }
      return false;
    }

    /** The existing enemies' targets stay valid when a structure is appended. */
    lemma EnemiesGrow(s: Structures, k: Kind, c: Building)
      requires k != TownHall && EnemiesOk(enemies, s)
      ensures EnemiesOk(enemies, Add(s, k, c))
    {
      forall i | 0 <= i < |enemies| ensures TargetValid(enemies[i], Add(s, k, c)) {
        if enemies[i].target.Some? {
          HandleGrows(s, k, c, enemies[i].target.value);
        }
      }
    }

    /** `placeWall`: a wall on the player's cell, when it overlaps nothing, fewer than
        200 walls exist, and the ledger covers 10 gold and 0 elixir. */
    method PlaceWall() returns (ok: bool)
      requires Valid()
      modifies this`walls, ledger
      ensures Valid()
      ensures var w := NewWall(player.x, player.y);
        ok <==> Buildable(w, old(World())) && |old(walls)| < w.maxInstances
                && old(ledger.gold) >= w.costGold && old(ledger.elixir) >= w.costElixir
      ensures ok ==> walls == old(walls) + [NewWall(player.x, player.y)]
                     && ledger.gold == old(ledger.gold) - 10 && ledger.elixir == old(ledger.elixir)
      ensures !ok ==> walls == old(walls) && ledger.gold == old(ledger.gold)
                      && ledger.elixir == old(ledger.elixir)
    {
      var w := NewWall(player.x, player.y);
      var free := CanBuild(w);
      if !free {
        return false;
      }
      if |walls| >= w.maxInstances {
        return false;
      }
      if ledger.gold >= w.costGold && ledger.elixir >= w.costElixir {
        var spentGold := ledger.SpendGold(w.costGold);
        var spentElixir := ledger.SpendElixir(w.costElixir);
        SiteAdd(World(), Wall, w);
        EnemiesGrow(World(), Wall, w);
        walls := walls + [w];
        return true;
      }
      return false;
    }

    /** `placeGoldMine`: a mine whose 5x5 footprint is centred on the player, when it
        overlaps nothing, fewer than 3 mines exist, and the ledger covers 100 elixir. */
    method PlaceGoldMine() returns (ok: bool)
      requires Valid()
      modifies this`goldMines, ledger
      ensures Valid()
      ensures var m := NewGoldMine(player.x - 2, player.y - 2);
        ok <==> Buildable(m, old(World())) && |old(goldMines)| < m.maxInstances
                && old(ledger.elixir) >= m.costElixir
      ensures ok ==> goldMines == old(goldMines) + [NewGoldMine(player.x - 2, player.y - 2)]
                     && ledger.gold == old(ledger.gold) && ledger.elixir == old(ledger.elixir) - 100
      ensures !ok ==> goldMines == old(goldMines) && ledger.gold == old(ledger.gold)
                      && ledger.elixir == old(ledger.elixir)
    {
      var newMine := NewGoldMine(0, 0);
      var centerX := player.x - newMine.sizeX / 2;
      var centerY := player.y - newMine.sizeY / 2;
      var mine := NewGoldMine(centerX, centerY);
      var free := CanBuild(mine);
      if !free {
        return false;
      }
      if |goldMines| >= newMine.maxInstances {
        return false;
      }
      if ledger.elixir >= newMine.costElixir {
        var spent := ledger.SpendElixir(newMine.costElixir);
        SiteAdd(World(), GoldMine, mine);
        EnemiesGrow(World(), GoldMine, mine);
        goldMines := goldMines + [mine];
        return true;
      }
      return false;
    }

    /** `placeElixirCollector`: a collector whose 5x5 footprint is centred on the player,
        when it overlaps nothing, fewer than 3 collectors exist, and the ledger covers 100 gold. */
    method PlaceElixirCollector() returns (ok: bool)
      requires Valid()
      modifies this`elixirCollectors, ledger
      ensures Valid()
      ensures var c := NewElixirCollector(player.x - 2, player.y - 2);
        ok <==> Buildable(c, old(World())) && |old(elixirCollectors)| < c.maxInstances
                && old(ledger.gold) >= c.costGold
      ensures ok ==> elixirCollectors == old(elixirCollectors) + [NewElixirCollector(player.x - 2, player.y - 2)]
                     && ledger.gold == old(ledger.gold) - 100 && ledger.elixir == old(ledger.elixir)
      ensures !ok ==> elixirCollectors == old(elixirCollectors) && ledger.gold == old(ledger.gold)
                      && ledger.elixir == old(ledger.elixir)
    {
      var newCollector := NewElixirCollector(0, 0);
      var centerX := player.x - newCollector.sizeX / 2;
      var centerY := player.y - newCollector.sizeY / 2;
      var collector := NewElixirCollector(centerX, centerY);
      var free := CanBuild(collector);
      if !free {
        return false;
      }
      if |elixirCollectors| >= newCollector.maxInstances {
        return false;
      }
      if ledger.gold >= newCollector.costGold {
        var spent := ledger.SpendGold(newCollector.costGold);
        SiteAdd(World(), ElixirCollector, collector);
        EnemiesGrow(World(), ElixirCollector, collector);
        elixirCollectors := elixirCollectors + [collector];
        return true;
      }
      return false;
    }

    /** `collectResources`: the first mine the player stands in that is full is emptied
        into gold, then the first such collector into elixir; each credit is 100. */
    method CollectResources()
      requires Valid()
      modifies this`goldMines, this`elixirCollectors, ledger
      ensures Valid()
      ensures var k := FirstIndex(old(goldMines), HarvestProbe(player));
        if k.Some? then
          goldMines == old(goldMines)[k.value := Generator.Collect(old(goldMines)[k.value]).site]
          && ledger.gold == old(ledger.gold) + Generator.CAPACITY
        else goldMines == old(goldMines) && ledger.gold == old(ledger.gold)
      ensures var k := FirstIndex(old(elixirCollectors), HarvestProbe(player));
        if k.Some? then
          elixirCollectors == old(elixirCollectors)[k.value := Generator.Collect(old(elixirCollectors)[k.value]).site]
          && ledger.elixir == old(ledger.elixir) + Generator.CAPACITY
        else elixirCollectors == old(elixirCollectors) && ledger.elixir == old(ledger.elixir)
    {
      var mines, collectors, gold, elixir := CollectAt(World(), player);
      Credit(mines, collectors, gold, elixir);
    }

    /** The write-back of `collectResources`: the generators as collected, and the
        yields added to the ledger. */
    method Credit(mines: seq<Building>, collectors: seq<Building>, gold: int, elixir: int)
      requires Valid() && SiteOk(Structures(walls, mines, collectors, townhall))
      requires |mines| == |goldMines| && |collectors| == |elixirCollectors|
      requires gold >= 0 && elixir >= 0
      modifies this`goldMines, this`elixirCollectors, ledger
      ensures Valid()
      ensures goldMines == mines && elixirCollectors == collectors
      ensures ledger.gold == old(ledger.gold) + gold && ledger.elixir == old(ledger.elixir) + elixir
    {
      goldMines, elixirCollectors := mines, collectors;
      if gold > 0 {
        ledger.gold := ledger.gold + gold;
      }
      if elixir > 0 {
        ledger.elixir := ledger.elixir + elixir;
      }
    }

    /** `updateResources`: every mine, then every collector, is updated once. */
    method UpdateResources()
      requires Valid()
      modifies this`goldMines, this`elixirCollectors
      ensures Valid()
      ensures goldMines == UpdatedAll(old(goldMines))
      ensures elixirCollectors == UpdatedAll(old(elixirCollectors))
    {
      ghost var s0 := World();
      goldMines := UpdateEach(goldMines);
      elixirCollectors := UpdateEach(elixirCollectors);
      AmountsAfterUpdate(s0.goldMines);
      AmountsAfterUpdate(s0.elixirCollectors);
      SiteKept(s0, World());
    }

    /** The counter part of `spawnEnemy`; the side and the row are drawn at random
        in the source and are parameters here. */
    method SpawnEnemy(leftSide: bool, row: int)
      requires Valid() && 1 <= row <= HEIGHT - 2
      modifies this`spawnCounter, this`enemies
      ensures Valid()
      ensures enemies == Spawn(old(enemies), old(spawnCounter), leftSide, row)
      ensures spawnCounter == if old(spawnCounter) + 1 >= SPAWN_RATE then 0 else old(spawnCounter) + 1
    {
      spawnCounter := spawnCounter + 1;
      if spawnCounter >= SPAWN_RATE {
        spawnCounter := 0;
        var x := if leftSide then MARGIN + 1 else WIDTH - 2;
        enemies := enemies + [Spawned(x, row)];
      }
    }

    /** `updateEnemies`: the enemies act, then destroyed walls, mines and collectors are
        removed (survivors keep their order) and the enemies' targets follow the survivors. */
    method UpdateEnemies()
      requires Valid()
      modifies this`enemies, this`walls, this`goldMines, this`elixirCollectors, this`townhall, this`gameOver
      ensures Valid()
      ensures var after := Cleanup(RunEnemies(old(enemies), old(townhall).pos, old(World())));
        enemies == after.enemies && World() == after.site
      ensures gameOver == (old(gameOver) || (|old(enemies)| > 0 && townhall.health <= 0))
    {
      var acted, w, g, c, th, over := EnemyPhase(enemies, townhall.pos, World());
      Commit(acted, w, g, c, th, over);
    }

    /** Stores the outcome of the enemy phase in the board: the enemies, the remaining
        structures, and `gameOver` once `over` is reported. */
    method Commit(acted: seq<Enemy>, w: seq<Building>, g: seq<Building>, c: seq<Building>, th: Building, over: bool)
      requires Valid()
      requires SiteOk(Structures(w, g, c, th)) && EnemiesOk(acted, Structures(w, g, c, th))
      requires (gameOver || over) <==> th.health <= 0
      modifies this`enemies, this`walls, this`goldMines, this`elixirCollectors, this`townhall, this`gameOver
      ensures Valid()
      ensures enemies == acted && World() == Structures(w, g, c, th) && gameOver == (old(gameOver) || over)
    {
      enemies, walls, goldMines, elixirCollectors, townhall := acted, w, g, c, th;
      if over {
        gameOver := true;
      }
    }

    /** `Board::update`: nothing once the match is over; otherwise the spawn counter,
        the enemies with the cleanup, then the generators. */
    method Update(leftSide: bool, row: int)
      requires Valid() && 1 <= row <= HEIGHT - 2
      modifies this`spawnCounter, this`enemies, this`walls, this`goldMines, this`elixirCollectors,
               this`townhall, this`gameOver
      ensures Valid()
      ensures old(gameOver) ==> unchanged(this)
      ensures !old(gameOver) ==>
        spawnCounter == if old(spawnCounter) + 1 >= SPAWN_RATE then 0 else old(spawnCounter) + 1
      ensures !old(gameOver) ==>
        var after := Cleanup(RunEnemies(Spawn(old(enemies), old(spawnCounter), leftSide, row), old(townhall).pos, old(World())));
        && enemies == after.enemies
        && walls == after.site.walls && townhall == after.site.townhall
        && goldMines == UpdatedAll(after.site.goldMines)
        && elixirCollectors == UpdatedAll(after.site.elixirCollectors)
    {
      if gameOver {
        return;
      }
      SpawnEnemy(leftSide, row);
      assert World() == old(World());
      UpdateEnemies();
      UpdateResources();
    }
  }
}
