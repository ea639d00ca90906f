/** The per-side gold ledger of the game (`resources`, `addGold`, `getGold`). */
module Resources {

  /** The balance of `side`; a side with no entry reads as 0. */
  function Balance(gold: map<int, real>, side: int): (b: real)
    ensures side in gold ==> b == gold[side]
    ensures side !in gold ==> b == 0.0
  {
    if side in gold then gold[side] else 0.0
  }

  /** addGold on a ledger: no side is added or dropped, and the named side's balance
      moves by the amount when the ledger has it. */
  function Credit(gold: map<int, real>, side: int, amount: real): (r: map<int, real>)
    ensures r.Keys == gold.Keys
    ensures Balance(r, side) == Balance(gold, side) + (if side in gold then amount else 0.0)
  {
    if side in gold then gold[side := gold[side] + amount] else gold
  }

  /** A credit moves only the named side's entry, by exactly `amount`, and adds no side;
      an unknown side leaves the ledger as it is. */
  lemma CreditFrame(gold: map<int, real>, side: int, amount: real)
    ensures var r := Credit(gold, side, amount);
            r.Keys == gold.Keys &&
            (forall s :: s in gold && s != side ==> r[s] == gold[s]) &&
            (side in gold ==> r[side] == gold[side] + amount) &&
            (side !in gold ==> r == gold)
  {
  }

  /** Reading a balance after a credit: the named side moves by the amount, every
      other side is untouched, and an unknown side stays at 0. */
  lemma CreditBalance(gold: map<int, real>, side: int, amount: real, other: int)
    ensures Balance(Credit(gold, side, amount), other) ==
              Balance(gold, other) + (if other == side && side in gold then amount else 0.0)
  {
  }

  /** Crediting a side and then debiting the same amount restores the ledger. */
  lemma CreditInverse(gold: map<int, real>, side: int, amount: real)
    ensures Credit(Credit(gold, side, amount), side, -amount) == gold
  {
  }

  const InitialGold: map<int, real> := map[0 := 500.0, 1 := 500.0]

  class Ledger {
    var gold: map<int, real>

    /** Both sides start with 500 gold (RESOURCES.STARTING_GOLD). */
    constructor ()
      ensures gold == InitialGold
    {
      gold := InitialGold;
    }

    function GetGold(side: int): (r: real)
      reads this
      ensures side !in gold ==> r == 0.0
      ensures side in gold ==> r == gold[side]
    {
      Balance(gold, side)
    }

    method AddGold(side: int, amount: real) returns (ok: bool)
      modifies this
      ensures ok <==> side in old(gold)
      ensures gold == Credit(old(gold), side, amount)
    {
      ok := side in gold;
      gold := Credit(gold, side, amount);
    }

    /** resetGame writes the two 500-gold entries back. */
    method Reset()
      modifies this
      ensures gold == InitialGold
    {
      gold := InitialGold;
    }
  }
}
