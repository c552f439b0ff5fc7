/** The player's two resource counters and their guarded debits. */
module Ledger {

  class Resources {
    var gold: int
    var elixir: int

    constructor (g: int, e: int)
      ensures gold == g && elixir == e
    {
      gold := g;
      elixir := e;
    }

    /** Debits `amount` gold when the balance covers it; otherwise changes nothing. */
    method SpendGold(amount: int) returns (ok: bool)
      modifies this
      ensures ok <==> old(gold) >= amount
      ensures ok ==> gold == old(gold) - amount
      ensures !ok ==> gold == old(gold)
      ensures elixir == old(elixir)
      ensures old(gold) >= 0 && amount >= 0 ==> gold >= 0
    {
      if gold >= amount {
        gold := gold - amount;
        return true;
      }
      return false;
    }

    /** Debits `amount` elixir when the balance covers it; otherwise changes nothing. */
    method SpendElixir(amount: int) returns (ok: bool)
      modifies this
      ensures ok <==> old(elixir) >= amount
      ensures ok ==> elixir == old(elixir) - amount
      ensures !ok ==> elixir == old(elixir)
      ensures gold == old(gold)
      ensures old(elixir) >= 0 && amount >= 0 ==> elixir >= 0
    {
      if elixir >= amount {
        elixir := elixir - amount;
        return true;
      }
      return false;
    }
  }
}
