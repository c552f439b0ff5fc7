/** `ResourceGenerator`: the accumulate-then-drain cycle of gold mines and elixir
    collectors, as functions on the building value that the board writes back. */
module Generator {
  import opened Geometry

  const CAPACITY := 100
  const GAIN := 5

  /** The amounts a generator can hold when it starts empty: multiples of 5 in [0, 100]. */
  predicate AmountOk(a: int) {
    0 <= a <= CAPACITY && a % GAIN == 0
  }

  predicate IsFull(g: Building) {
    g.currentAmount >= CAPACITY
  }

  /** `ResourceGenerator::update`: adds 5 while below capacity, otherwise does nothing. */
  function Update(g: Building): (r: Building)
    ensures r.(currentAmount := g.currentAmount) == g
    ensures IsFull(g) ==> r == g
    ensures !IsFull(g) ==> r.currentAmount == g.currentAmount + GAIN
    ensures AmountOk(g.currentAmount) ==> AmountOk(r.currentAmount)
  {
    if g.currentAmount < CAPACITY then g.(currentAmount := g.currentAmount + GAIN) else g
  }

  datatype Harvest = Harvest(site: Building, collected: int)

  /** `ResourceGenerator::collect`: a full generator yields its whole amount and
      restarts from 0; any other returns 0 and is left as it was. */
  function Collect(g: Building): (r: Harvest)
    ensures r.site.(currentAmount := g.currentAmount) == g
    ensures r.collected > 0 <==> IsFull(g)
    ensures IsFull(g) ==> r.collected == g.currentAmount && r.site.currentAmount == 0
    ensures !IsFull(g) ==> r == Harvest(g, 0)
    ensures AmountOk(g.currentAmount) ==> AmountOk(r.site.currentAmount)
    ensures AmountOk(g.currentAmount) ==> r.collected == 0 || r.collected == CAPACITY
  {
    if g.currentAmount >= CAPACITY then Harvest(g.(currentAmount := 0), g.currentAmount)
    else Harvest(g, 0)
  }

  /** `n` successive updates. */
  function Updated(g: Building, n: nat): Building {
    if n == 0 then g else Update(Updated(g, n - 1))
  }

  function Min(a: int, b: int): int {
    if a < b then a else b
  }

  /** From empty, `n` updates leave min(5n, 100) in store and change nothing else:
      full after 20 updates, and unchanged by any further update. */
  lemma {:induction false} UpdatedFromEmpty(g: Building, n: nat)
    requires g.currentAmount == 0
    ensures Updated(g, n) == g.(currentAmount := Min(GAIN * n, CAPACITY))
  {
    if n > 0 {
      UpdatedFromEmpty(g, n - 1);
    }
  }

  /** Twenty updates then a collection give exactly 100 and return the generator
      to its empty state; an immediate second collection gives 0. */
  lemma FillThenCollect(g: Building)
    requires g.currentAmount == 0
    ensures Collect(Updated(g, 20)) == Harvest(g, CAPACITY)
    ensures Collect(Collect(Updated(g, 20)).site).collected == 0
  {
    UpdatedFromEmpty(g, 20);
  }

  /** Whatever the state, a collection right after a collection yields nothing. */
  lemma CollectTwice(g: Building)
    ensures Collect(Collect(g).site).collected == 0
  {
  }
}
