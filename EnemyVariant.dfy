/** The enemy of Enemy.cpp: the town-hall footprint is tested first and reported
    as "reached"; a structure found on the cell is hit at once; the remembered
    target is never used again; the town hall is read-only. */
module EnemyVariant {
  import opened Search
  import opened Geometry
  import opened Structures
  import opened EnemyAgent

  datatype Outcome = Outcome(enemy: Enemy, site: Structures, reached: bool)

  /** `Enemy::update` of Enemy.cpp, returning the "town hall reached" flag. */
  function Step(e: Enemy, t: Position, s: Structures): (r: Outcome)
    ensures SameLayout(s, r.site)
    ensures r.site.townhall == s.townhall
    ensures r.reached ==> r.enemy == e.(speedCounter := 0) && r.site == s
    ensures 0 <= e.speedCounter < SPEED ==> 0 <= r.enemy.speedCounter < SPEED
  {
    var counter := e.speedCounter + 1;
    if counter < SPEED then Outcome(e.(speedCounter := counter), s, false)
    else
      var e0 := e.(speedCounter := 0);
      if Covers(s.townhall, e.pos) then Outcome(e0, s, true)
      else
        match ScanBuildings(e.pos, s)
        case Some(h) =>
          var s' := DamageAt(s, h, DAMAGE);
          assert ValidHandle(Handle(TownHall, 0), s);
          Outcome(e0.(target := if At(s', h).health <= 0 then None else Some(h)), s', false)
        case None => Outcome(e0.(pos := StepToward(e.pos, t)), s, false)
  }

  /** The update as the source runs it: counter, town-hall test, the scanning loops
      with the hit inside them, then the move. */
  method Update(e: Enemy, t: Position, s: Structures) returns (e': Enemy, s': Structures, reached: bool)
    ensures Outcome(e', s', reached) == Step(e, t, s)
  {
    var counter := e.speedCounter + 1;
    if counter < SPEED {
      return e.(speedCounter := counter), s, false;
    }
    var e0 := e.(speedCounter := 0);
    if Covers(s.townhall, e.pos) {
      return e0, s, true;
    }
    var hit := Scan(e.pos, s);
    if hit.Some? {
      var h := hit.value;
      s' := DamageAt(s, h, DAMAGE);
      e' := e0.(target := Some(h));
      if At(s', h).health <= 0 {
        e' := e'.(target := None);
      }
      return e', s', false;
    }
    return e0.(pos := StepToward(e.pos, t)), s, false;
  }

  /** A call that does not act only advances the counter and reports nothing. */
  lemma Idle(e: Enemy, t: Position, s: Structures)
    requires !Acts(e)
    ensures Step(e, t, s) == Outcome(e.(speedCounter := e.speedCounter + 1), s, false)
  {
  }

  /** An acting call reports "reached" exactly when the enemy stands in the town
      hall's footprint, and then changes nothing but the counter. */
  lemma ReachedIff(e: Enemy, t: Position, s: Structures)
    requires Acts(e)
    ensures Step(e, t, s).reached <==> Covers(s.townhall, e.pos)
    ensures Covers(s.townhall, e.pos) ==> Step(e, t, s) == Outcome(e.(speedCounter := 0), s, true)
  {
  }

  /** Outside the town hall, the first live structure found (walls, then mines, then
      collectors) takes exactly DAMAGE at once, the enemy stays put and keeps it as
      target only while its health is above 0. */
  lemma StrikeOnDetection(e: Enemy, t: Position, s: Structures, h: Handle)
    requires Acts(e) && !Covers(s.townhall, e.pos) && ScanBuildings(e.pos, s) == Some(h)
    ensures var r := Step(e, t, s);
      && !r.reached && r.site == DamageAt(s, h, DAMAGE)
      && At(r.site, h).health == At(s, h).health - DAMAGE
      && r.enemy.pos == e.pos && r.enemy.speedCounter == 0
      && r.enemy.target == (if At(r.site, h).health <= 0 then None else Some(h))
  {
  }

  /** With nothing on the cell, one step toward `t` is stored and nothing is damaged. */
  lemma Advance(e: Enemy, t: Position, s: Structures)
    requires Acts(e) && !Covers(s.townhall, e.pos) && ScanBuildings(e.pos, s) == None
    ensures Step(e, t, s) == Outcome(e.(speedCounter := 0, pos := StepToward(e.pos, t)), s, false)
  {
  }

  /** The remembered target plays no part: every action scans afresh, so the
      structures, the flag and the position do not depend on it. */
  lemma NoStickyTarget(e: Enemy, t: Position, s: Structures, other: Option<Handle>)
    ensures var r := Step(e, t, s); var r' := Step(e.(target := other), t, s);
      r'.site == r.site && r'.reached == r.reached && r'.enemy.pos == r.enemy.pos
      && r'.enemy.speedCounter == r.enemy.speedCounter
  {
  }

  /** The two versions part ways on an enemy that reaches a live wall with no target:
      contour.cpp only records the wall, Enemy.cpp hits it on the same action. */
  lemma VersionsDiffer()
    ensures var s := Structures([NewWall(40, 10)], [], [], NewTownHall(80, 16));
      var e := Enemy(Position(40, 10), SPEED - 1, None);
      && EnemyAgent.Step(e, s.townhall.pos, s).site.walls[0].health == 100
      && EnemyAgent.Step(e, s.townhall.pos, s).enemy.target == Some(Handle(Wall, 0))
      && Step(e, s.townhall.pos, s).site.walls[0].health == 100 - DAMAGE
  {
    var s := Structures([NewWall(40, 10)], [], [], NewTownHall(80, 16));
    var p := Position(40, 10);
    assert WallAt(s.walls[0], p);
    assert FirstIndex(s.walls, WallProbe(p)) == Some(0);
  }
}
