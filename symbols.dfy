/**
 * The fixed weighted symbol tables and the cumulative-weight draw shared by
 * every copy of the slot engine (5x5 engine, probability module, 3-reel game).
 *
 * `Math.random()` is not modelled: each draw takes its uniform value `u` as a
 * parameter. Rarities are exact decimals (`real`), not IEEE doubles.
 */
module Symbols {

  /**
   * The eight symbol names. Both games use the same eight, spelled with a
   * capital in the 5x5 engine and in lower case in the 3-reel game; symbols
   * are only ever compared by name, so the name is an enumeration here.
   */
  datatype SymbolName = Crystal | Sword | Shield | Armor | Gear | Pipe | Potion | Button

  /** The name as the tables spell it. */
  function NameText(n: SymbolName, lowerCase: bool): string {
    match n
    case Crystal => if lowerCase then "crystal" else "Crystal"
    case Sword => if lowerCase then "sword" else "Sword"
    case Shield => if lowerCase then "shield" else "Shield"
    case Armor => if lowerCase then "armor" else "Armor"
    case Gear => if lowerCase then "gear" else "Gear"
    case Pipe => if lowerCase then "pipe" else "Pipe"
    case Potion => if lowerCase then "potion" else "Potion"
    case Button => if lowerCase then "button" else "Button"
  }

  /** A slot symbol: identity is its `name`; `kind` is descriptive only. */
  datatype Symbol = Symbol(name: SymbolName, damage: nat, rarity: real, kind: string)

  /** `SLOT_SYMBOLS` of the 5x5 engine and the probability module, in table order. */
  const SlotSymbols: seq<Symbol> := [
    Symbol(Crystal, 35, 0.10, "magic"),
    Symbol(Sword, 30, 0.15, "attack"),
    Symbol(Shield, 25, 0.15, "defense"),
    Symbol(Armor, 22, 0.10, "defense"),
    Symbol(Gear, 20, 0.20, "mechanical"),
    Symbol(Pipe, 15, 0.15, "steam"),
    Symbol(Potion, 10, 0.10, "healing"),
    Symbol(Button, 5, 0.05, "utility")
  ]

  /** `SLOT_SYMBOLS` of the older 3-reel game: lower-case names, another order. */
  const ReelSymbols: seq<Symbol> := [
    Symbol(Sword, 30, 0.15, "attack"),
    Symbol(Shield, 25, 0.15, "defense"),
    Symbol(Gear, 20, 0.20, "mechanical"),
    Symbol(Crystal, 35, 0.10, "magic"),
    Symbol(Pipe, 15, 0.15, "steam"),
    Symbol(Potion, 10, 0.10, "healing"),
    Symbol(Armor, 22, 0.10, "defense"),
    Symbol(Button, 5, 0.05, "utility")
  ]

  /** Sum of the rarities of the first `k` table entries. */
  function Cumulative(t: seq<Symbol>, k: nat): real
    requires k <= |t|
  {
    if k == 0 then 0.0 else Cumulative(t, k - 1) + t[k - 1].rarity
  }

  /** Every rarity is positive and at most 1. */
  predicate WellFormed(t: seq<Symbol>) {
    |t| > 0 && forall i :: 0 <= i < |t| ==> 0.0 < t[i].rarity <= 1.0
  }

  /**
   * The index chosen when the walk has passed entries `0..i` without a hit:
   * the first `j >= i` whose cumulative weight reaches `u`, or the last entry
   * when none does (the fallback for rounding slack).
   */
  function SelectFrom(t: seq<Symbol>, u: real, i: nat): (r: nat)
    requires 0 < |t| && i <= |t|
    decreases |t| - i
    ensures r < |t|
    ensures i < |t| ==> i <= r
    ensures forall j :: i < j <= r ==> Cumulative(t, j) < u
    ensures u <= Cumulative(t, r + 1) || (r == |t| - 1 && (i < |t| ==> Cumulative(t, |t|) < u))
  {
    if i == |t| then |t| - 1
    else if u <= Cumulative(t, i + 1) then i
    else SelectFrom(t, u, i + 1)
  }

  /** The symbol `getRandomSymbol` returns for the random value `u`. */
  function Draw(t: seq<Symbol>, u: real): Symbol
    requires |t| > 0
  {
    t[SelectFrom(t, u, 0)]
  }

  /**
   * `getRandomSymbol`: walk the table accumulating rarity and return the
   * first symbol whose cumulative weight is at least `u`; fall back to the
   * last symbol.
   */
  method GetRandomSymbol(t: seq<Symbol>, u: real) returns (s: Symbol)
    requires |t| > 0
    ensures s == Draw(t, u)
    ensures s in t
  {
    var cumulativeWeight := 0.0;
    var i := 0;
    while i < |t|
      invariant 0 <= i <= |t|
      invariant cumulativeWeight == Cumulative(t, i)
      invariant SelectFrom(t, u, 0) == SelectFrom(t, u, i)
    {
      cumulativeWeight := cumulativeWeight + t[i].rarity;
      if u <= cumulativeWeight {
        return t[i];
      }
      i := i + 1;
    }
    s := t[|t| - 1];
  }

  lemma {:induction false} CumulativeStrictlyIncreasing(t: seq<Symbol>, j: nat, k: nat)
    requires WellFormed(t) && j < k <= |t|
    ensures Cumulative(t, j) < Cumulative(t, k)
    decreases k - j
  {
    if j + 1 < k {
      CumulativeStrictlyIncreasing(t, j + 1, k);
    }
  }

  lemma {:induction false} CumulativeNonNegative(t: seq<Symbol>, k: nat)
    requires WellFormed(t) && k <= |t|
    ensures 0.0 <= Cumulative(t, k)
  {
    if k > 0 {
      CumulativeNonNegative(t, k - 1);
    }
  }

  /**
   * The draw partitions [0, 1): on a table whose rarities are positive and
   * sum to 1, `u` in [0, 1) selects entry `i` exactly when `u` lies in
   * (Cumulative(i), Cumulative(i+1)] (for entry 0, [0, Cumulative(1)]). The
   * interval for entry `i` has length `t[i].rarity`, which is why each symbol
   * is drawn with probability equal to its rarity; the fallback is never taken.
   */
  lemma DrawSelectsInterval(t: seq<Symbol>, u: real, i: nat)
    requires WellFormed(t) && Cumulative(t, |t|) == 1.0
    requires 0.0 <= u < 1.0 && i < |t|
    ensures SelectFrom(t, u, 0) == i <==> (i == 0 || Cumulative(t, i) < u) && u <= Cumulative(t, i + 1)
  {
    var r := SelectFrom(t, u, 0);
    assert u <= Cumulative(t, r + 1);
    if r < i {
      if i == 0 {
      } else {
        if r + 1 < i { CumulativeStrictlyIncreasing(t, r + 1, i); }
        assert !(Cumulative(t, i) < u);
      }
    } else if r > i {
      assert Cumulative(t, i + 1) < u;
    } else if r > 0 {
      assert Cumulative(t, r) < u;
    }
  }

  /** The shipped 5x5 table is well formed and its rarities sum to exactly 1. */
  lemma SlotSymbolsSumToOne()
    ensures WellFormed(SlotSymbols)
    ensures Cumulative(SlotSymbols, |SlotSymbols|) == 1.0
  {
    var t := SlotSymbols;
    assert Cumulative(t, 1) == 0.10;
    assert Cumulative(t, 2) == 0.25;
    assert Cumulative(t, 3) == 0.40;
    assert Cumulative(t, 4) == 0.50;
    assert Cumulative(t, 5) == 0.70;
    assert Cumulative(t, 6) == 0.85;
    assert Cumulative(t, 7) == 0.95;
  }

  /** The 3-reel table is well formed and also sums to exactly 1. */
  lemma ReelSymbolsSumToOne()
    ensures WellFormed(ReelSymbols)
    ensures Cumulative(ReelSymbols, |ReelSymbols|) == 1.0
  {
    var t := ReelSymbols;
    assert Cumulative(t, 1) == 0.15;
    assert Cumulative(t, 2) == 0.30;
    assert Cumulative(t, 3) == 0.50;
    assert Cumulative(t, 4) == 0.60;
    assert Cumulative(t, 5) == 0.75;
    assert Cumulative(t, 6) == 0.85;
    assert Cumulative(t, 7) == 0.95;
  }

  /** Jackpot meter gain of one cell: `Math.floor((1 - rarity) * 10)`. */
  function JackpotIncrement(s: Symbol): int {
    ((1.0 - s.rarity) * 10.0).Floor
  }

  /**
   * With the shipped table every cell adds 8 or 9: Crystal, Armor, Potion and
   * Button add 9; Sword, Shield, Gear and Pipe add 8.
   */
  lemma SlotSymbolIncrements(s: Symbol)
    requires s in SlotSymbols
    ensures 8 <= JackpotIncrement(s) <= 9
    ensures JackpotIncrement(s) == (if s.rarity <= 0.10 then 9 else 8)
  {
  }

  /** On the 3-reel table too every symbol adds 8 or 9 to the meter. */
  lemma ReelSymbolIncrements(s: Symbol)
    requires s in ReelSymbols
    ensures 8 <= JackpotIncrement(s) <= 9
  {
  }
}
