/** The structures an enemy acts on (walls, gold mines, elixir collectors and the
    town hall), handles that name one of them by kind and index, the non-overlap
    invariant, and the removal of destroyed structures with the handle remapping
    that goes with it. */
module Structures {
  import opened Search
  import opened Geometry

  datatype Structures = Structures(
    walls: seq<Building>,
    goldMines: seq<Building>,
    elixirCollectors: seq<Building>,
    townhall: Building)

  /** Names one structure: an index into the sequence of its kind, or index 0 for the town hall.
      This replaces the `Building*` that an enemy keeps as its target. */
  datatype Handle = Handle(kind: Kind, index: nat)

  /** The sequence holding the structures of a kind other than the town hall. */
  function Group(s: Structures, k: Kind): seq<Building>
    requires k != TownHall
  {
    match k
    case Wall => s.walls
    case GoldMine => s.goldMines
    case ElixirCollector => s.elixirCollectors
  }

  predicate ValidHandle(h: Handle, s: Structures) {
    if h.kind == TownHall then h.index == 0 else h.index < |Group(s, h.kind)|
  }

  function At(s: Structures, h: Handle): Building
    requires ValidHandle(h, s)
  {
    if h.kind == TownHall then s.townhall else Group(s, h.kind)[h.index]
  }

  /** Replaces the sequence of kind `k`. */
  function WithGroup(s: Structures, k: Kind, g: seq<Building>): (r: Structures)
    requires k != TownHall
    ensures Group(r, k) == g && r.townhall == s.townhall
    ensures forall k' :: k' != TownHall && k' != k ==> Group(r, k') == Group(s, k')
  {
    match k
    case Wall => s.(walls := g)
    case GoldMine => s.(goldMines := g)
    case ElixirCollector => s.(elixirCollectors := g)
  }

  /** Two sequences that differ in health only. */
  predicate HealthOnly(a: seq<Building>, b: seq<Building>) {
    |a| == |b| && forall i :: 0 <= i < |a| ==> a[i].(health := b[i].health) == b[i]
  }

  /** `s'` is `s` with some health values changed and nothing else. */
  predicate SameLayout(s: Structures, s': Structures) {
    && HealthOnly(s.walls, s'.walls)
    && HealthOnly(s.goldMines, s'.goldMines)
    && HealthOnly(s.elixirCollectors, s'.elixirCollectors)
    && s.townhall.(health := s'.townhall.health) == s'.townhall
  }

  predicate SameShape(a: Building, b: Building) {
    a.pos == b.pos && a.sizeX == b.sizeX && a.sizeY == b.sizeY
  }

  predicate ShapesAgree(a: seq<Building>, b: seq<Building>) {
    |a| == |b| && forall i :: 0 <= i < |a| ==> SameShape(a[i], b[i])
  }

  /** Every structure keeps its position and size, whatever else changes. */
  predicate SameShapes(s: Structures, s': Structures) {
    && ShapesAgree(s.walls, s'.walls)
    && ShapesAgree(s.goldMines, s'.goldMines)
    && ShapesAgree(s.elixirCollectors, s'.elixirCollectors)
    && SameShape(s.townhall, s'.townhall)
  }

  /** The structures `h1` and `h2` name, when both exist and differ, do not overlap. */
  predicate Apart(s: Structures, h1: Handle, h2: Handle) {
    ValidHandle(h1, s) && ValidHandle(h2, s) && h1 != h2 ==> !Colliding(At(s, h1), At(s, h2))
  }

  /** No two distinct structures, the town hall included, overlap. */
  ghost predicate Separated(s: Structures) {
    forall h1, h2 :: Apart(s, h1, h2)
  }

  /** The candidate overlaps no existing structure. */
  ghost predicate Buildable(c: Building, s: Structures) {
    forall h :: ValidHandle(h, s) ==> !Colliding(c, At(s, h))
  }

  /** Applies `damage` to the structure `h` names and to nothing else. */
  function DamageAt(s: Structures, h: Handle, damage: int): (r: Structures)
    requires ValidHandle(h, s)
    ensures SameLayout(s, r) && ValidHandle(h, r)
    ensures At(r, h) == TakeDamage(At(s, h), damage)
    ensures forall h' :: ValidHandle(h', s) && h' != h ==> At(r, h') == At(s, h')
  {
    if h.kind == TownHall then s.(townhall := TakeDamage(s.townhall, damage))
    else
      var g := Group(s, h.kind);
      WithGroup(s, h.kind, g[h.index := TakeDamage(g[h.index], damage)])
  }

  lemma LayoutHasShapes(s: Structures, s': Structures)
    requires SameLayout(s, s')
    ensures SameShapes(s, s')
  {
    assert s'.townhall.pos == s.townhall.pos;
  }

  lemma SameLayoutTransitive(s: Structures, s': Structures, s'': Structures)
    requires SameLayout(s, s') && SameLayout(s', s'')
    ensures SameLayout(s, s'')
  {
  }

  lemma ShapeAt(s: Structures, s': Structures, h: Handle)
    requires SameShapes(s, s') && ValidHandle(h, s')
    ensures ValidHandle(h, s) && SameShape(At(s, h), At(s', h))
  {
  }

  /** Non-overlap depends on positions and sizes only, so it survives any change
      to health or stored amounts. */
  lemma SeparatedKept(s: Structures, s': Structures)
    requires SameShapes(s, s') && Separated(s)
    ensures Separated(s')
  {
    forall h1, h2 ensures Apart(s', h1, h2) {
      if ValidHandle(h1, s') && ValidHandle(h2, s') && h1 != h2 {
        ShapeAt(s, s', h1);
        ShapeAt(s, s', h2);
        assert Apart(s, h1, h2);
        CollidingByShape(At(s, h1), At(s, h2), At(s', h1), At(s', h2));
      }
    }
  }

  /** Appends `c` to the sequence of kind `k` (a `push_back`). */
  function Add(s: Structures, k: Kind, c: Building): (r: Structures)
    requires k != TownHall
  {
    WithGroup(s, k, Group(s, k) + [c])
  }

  lemma AddAt(s: Structures, k: Kind, c: Building, h: Handle)
    requires k != TownHall && ValidHandle(h, Add(s, k, c))
    ensures h == Handle(k, |Group(s, k)|) ==> At(Add(s, k, c), h) == c
    ensures h != Handle(k, |Group(s, k)|) ==> ValidHandle(h, s) && At(Add(s, k, c), h) == At(s, h)
  {
  }

  /** Adding a structure that overlaps nothing keeps the structures pairwise apart. */
  lemma SeparatedAdd(s: Structures, k: Kind, c: Building)
    requires k != TownHall && Separated(s) && Buildable(c, s)
    ensures Separated(Add(s, k, c))
  {
    var s' := Add(s, k, c);
    var added := Handle(k, |Group(s, k)|);
    forall h1, h2 ensures Apart(s', h1, h2) {
      if ValidHandle(h1, s') && ValidHandle(h2, s') && h1 != h2 {
        AddAt(s, k, c, h1);
        AddAt(s, k, c, h2);
        if h1 == added {
          assert !Colliding(c, At(s, h2));
        } else if h2 == added {
          assert !Colliding(c, At(s, h1));
          CollidingSymmetric(c, At(s, h1));
        } else {
          assert Apart(s, h1, h2);
        }
      }
    }
  }

  lemma HandleGrows(s: Structures, k: Kind, c: Building, h: Handle)
    requires k != TownHall && ValidHandle(h, s)
    ensures ValidHandle(h, Add(s, k, c)) && At(Add(s, k, c), h) == At(s, h)
  {
  }

  /** The structures that `remove_if` keeps: those with health above 0, in their original order. */
  function Live(bs: seq<Building>): (r: seq<Building>)
    ensures |r| <= |bs|
    ensures forall i :: 0 <= i < |r| ==> r[i].health > 0
    decreases |bs|
  {
    if bs == [] then []
    else
      var rest := Live(bs[..|bs| - 1]);
      var last := bs[|bs| - 1];
      if last.health > 0 then rest + [last] else rest
  }

  /** Where the element at index `k` ends up once the destroyed ones before it are removed. */
  function LiveIndex(bs: seq<Building>, k: nat): nat
    requires k <= |bs|
  {
    |Live(bs[..k])|
  }

  lemma {:induction false} LivePrefix(bs: seq<Building>, m: nat)
    requires m <= |bs|
    ensures |Live(bs[..m])| <= |Live(bs)|
    ensures Live(bs)[..|Live(bs[..m])|] == Live(bs[..m])
    decreases |bs|
  {
    if m == |bs| {
      assert bs[..m] == bs;
    } else {
      var front := bs[..|bs| - 1];
      LivePrefix(front, m);
      assert front[..m] == bs[..m];
    }
  }

  /** A surviving structure is found, unchanged, at its new index. */
  lemma {:induction false} LiveIndexSound(bs: seq<Building>, k: nat)
    requires k < |bs| && bs[k].health > 0
    ensures LiveIndex(bs, k) < |Live(bs)| && Live(bs)[LiveIndex(bs, k)] == bs[k]
  {
    var upTo := bs[..k + 1];
    assert upTo[..|upTo| - 1] == bs[..k];
    assert Live(upTo) == Live(bs[..k]) + [bs[k]];
    LivePrefix(bs, k + 1);
  }

  /** Survivors keep their relative order. */
  lemma {:induction false} LiveIndexMonotone(bs: seq<Building>, k1: nat, k2: nat)
    requires k1 < k2 < |bs| && bs[k1].health > 0
    ensures LiveIndex(bs, k1) < LiveIndex(bs, k2)
  {
    var upTo := bs[..k1 + 1];
    assert upTo[..|upTo| - 1] == bs[..k1];
    assert Live(upTo) == Live(bs[..k1]) + [bs[k1]];
    LivePrefix(bs[..k2], k1 + 1);
    assert bs[..k2][..k1 + 1] == upTo;
  }

  /** Every element of the pruned sequence comes from a live element of the original. */
  lemma {:induction false} LiveOrigin(bs: seq<Building>, i: nat) returns (k: nat)
    requires i < |Live(bs)|
    ensures k < |bs| && bs[k].health > 0 && LiveIndex(bs, k) == i
    decreases |bs|
  {
    var front := bs[..|bs| - 1];
    if i < |Live(front)| {
      k := LiveOrigin(front, i);
      assert front[..k] == bs[..k];
    } else {
      k := |bs| - 1;
      assert bs[..k] == front;
    }
  }

  /** Removal is the identity when nothing is destroyed. */
  lemma {:induction false} LiveAllAlive(bs: seq<Building>)
    requires forall i :: 0 <= i < |bs| ==> bs[i].health > 0
    ensures Live(bs) == bs
    decreases |bs|
  {
    if bs != [] {
      var front := bs[..|bs| - 1];
      LiveAllAlive(front);
      assert front + [bs[|bs| - 1]] == bs;
    }
  }

  /** The cleanup of `Board::updateEnemies`: destroyed walls, mines and collectors
      are removed; the town hall stays. */
  function Prune(s: Structures): (r: Structures)
    ensures r.townhall == s.townhall
    ensures |r.walls| <= |s.walls| && |r.goldMines| <= |s.goldMines|
    ensures |r.elixirCollectors| <= |s.elixirCollectors|
    ensures forall i :: 0 <= i < |r.walls| ==> r.walls[i].health > 0
    ensures forall i :: 0 <= i < |r.goldMines| ==> r.goldMines[i].health > 0
    ensures forall i :: 0 <= i < |r.elixirCollectors| ==> r.elixirCollectors[i].health > 0
  {
    Structures(Live(s.walls), Live(s.goldMines), Live(s.elixirCollectors), s.townhall)
  }

  /** Where a handle points after `Prune`: a surviving structure at its new index,
      or nothing when the structure was removed. */
  function Remap(s: Structures, h: Handle): Option<Handle>
    requires ValidHandle(h, s)
  {
    if h.kind == TownHall then Some(h)
    else if At(s, h).health > 0 then Some(Handle(h.kind, LiveIndex(Group(s, h.kind), h.index)))
    else None
  }

  lemma PruneGroup(s: Structures, k: Kind)
    requires k != TownHall
    ensures Group(Prune(s), k) == Live(Group(s, k))
  {
  }

  /** A remapped handle names the same structure in the pruned state; a handle is
      dropped exactly when its structure was destroyed. */
  lemma RemapSound(s: Structures, h: Handle)
    requires ValidHandle(h, s)
    ensures Remap(s, h).None? <==> h.kind != TownHall && At(s, h).health <= 0
    ensures Remap(s, h).Some? ==> Remap(s, h).value.kind == h.kind
    ensures Remap(s, h).Some? ==>
      ValidHandle(Remap(s, h).value, Prune(s)) && At(Prune(s), Remap(s, h).value) == At(s, h)
  {
    if h.kind != TownHall && At(s, h).health > 0 {
      PruneGroup(s, h.kind);
      LiveIndexSound(Group(s, h.kind), h.index);
    }
  }

  lemma PruneOrigin(s: Structures, h': Handle) returns (h: Handle)
    requires ValidHandle(h', Prune(s))
    ensures ValidHandle(h, s) && Remap(s, h) == Some(h')
  {
    if h'.kind == TownHall {
      h := h';
    } else {
      PruneGroup(s, h'.kind);
      var k := LiveOrigin(Group(s, h'.kind), h'.index);
      h := Handle(h'.kind, k);
    }
  }

  /** Removing structures keeps the rest pairwise apart. */
  lemma SeparatedPrune(s: Structures)
    requires Separated(s)
    ensures Separated(Prune(s))
  {
    var p := Prune(s);
    forall h1', h2' ensures Apart(p, h1', h2') {
      if ValidHandle(h1', p) && ValidHandle(h2', p) && h1' != h2' {
        var h1 := PruneOrigin(s, h1');
        var h2 := PruneOrigin(s, h2');
        RemapSound(s, h1);
        RemapSound(s, h2);
        assert Apart(s, h1, h2);
      }
    }
  }
}
