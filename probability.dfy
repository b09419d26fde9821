/**
 * The probability module of the 5x5 game (`ProbabilitySystem`): closed-form
 * odds of a run on one payline, the overall win probability over the 20
 * paylines, expected damage and return to player, the simplified 12-line grid
 * scan used by the simulator, the simulation cache, and the RTP optimiser.
 *
 * Probabilities are exact `real`s, not IEEE doubles. Random numbers are
 * parameters: `us` for the 25 cell draws of a spin, `noise` for the optimiser's
 * perturbations.
 */
module Probability {
  import opened Wrappers
  import opened Numbers
  import opened Symbols
  import opened Runs
  import SlotEngine

  /** `getTotalPaylines`: 5 horizontal, 5 vertical, 2 diagonal, 8 pattern lines. */
  const TotalPaylines: nat := 5 + 5 + 2 + 8
  const LinePositions: nat := 5

  function Pow(x: real, n: nat): real {
    if n == 0 then 1.0 else x * Pow(x, n - 1)
  }

  // ---------------------------------------------------------------------
  // Symbol probabilities
  // ---------------------------------------------------------------------

  /** The name-to-rarity object the constructor builds; a later entry wins. */
  function RarityMap(t: seq<Symbol>): (m: map<SymbolName, real>)
    ensures forall i :: 0 <= i < |t| ==> t[i].name in m
    ensures forall n :: n in m ==> exists i :: 0 <= i < |t| && t[i].name == n
  {
    if t == [] then map[]
    else
      var init := RarityMap(t[..|t| - 1]);
      assert forall i :: 0 <= i < |t| - 1 ==> t[..|t| - 1][i] == t[i];
      init[t[|t| - 1].name := t[|t| - 1].rarity]
  }

  /** One more entry of the table sets its name to its rarity. */
  lemma RarityMapStep(t: seq<Symbol>, i: nat)
    requires i < |t|
    ensures RarityMap(t[..i + 1]) == RarityMap(t[..i])[t[i].name := t[i].rarity]
  {
    assert t[..i + 1][..i] == t[..i];
  }

  /** `getSymbolProbability`: the rarity of a known name, 0 for an unknown one. */
  function ProbabilityOf(m: map<SymbolName, real>, n: SymbolName): real {
    if n in m then m[n] else 0.0
  }

  /** Whether `calculateSymbolProbabilities` prints its warning. */
  predicate Warns(total: real) {
    Abs(total - 1.0) > 0.001
  }

  /** `calculateSymbolProbabilities`: build the map and check the total. */
  method CalculateSymbolProbabilities(t: seq<Symbol>) returns (m: map<SymbolName, real>, total: real, warn: bool)
    ensures m == RarityMap(t)
    ensures total == Cumulative(t, |t|)
    ensures warn == Warns(total)
  {
    m := map[];
    total := 0.0;
    var i := 0;
    while i < |t|
      invariant 0 <= i <= |t|
      invariant m == RarityMap(t[..i])
      invariant total == Cumulative(t, i)
    {
      RarityMapStep(t, i);
      m := m[t[i].name := t[i].rarity];
      total := total + t[i].rarity;
      i := i + 1;
    }
    assert t[..i] == t;
    warn := Abs(total - 1.0) > 0.001;
  }

  // ---------------------------------------------------------------------
  // Closed forms for one payline
  // ---------------------------------------------------------------------

  /** `calculateMatchProbability`: a run of exactly `n`, closed by a different symbol unless it fills the line. */
  function MatchProbability(p: real, n: nat, total: nat): real {
    if n == total then Pow(p, n) else Pow(p, n) * (1.0 - p)
  }

  /** The sum `calculateMinMatchProbability` computes, lengths `lo..total`. */
  function MinMatchSum(p: real, lo: nat, total: nat): real
    decreases total + 1 - lo
  {
    if lo > total then 0.0 else MatchProbability(p, lo, total) + MinMatchSum(p, lo + 1, total)
  }

  /** Odds per symbol, as in `calculatePaylineProbabilities`. */
  datatype LineOdds = LineOdds(exactly3: real, exactly4: real, exactly5: real, atLeast3: real)

  function Odds(p: real): LineOdds {
    LineOdds(MatchProbability(p, 3, LinePositions), MatchProbability(p, 4, LinePositions),
             MatchProbability(p, 5, LinePositions), MinMatchSum(p, MinMatchLength, LinePositions))
  }

  /** `calculatePaylineProbabilities` over a table, reading rarities from `m`. */
  function OddsTable(t: seq<Symbol>, m: map<SymbolName, real>): (r: map<SymbolName, LineOdds>)
    ensures forall i :: 0 <= i < |t| ==> t[i].name in r
  {
    if t == [] then map[]
    else
      var init := OddsTable(t[..|t| - 1], m);
      assert forall i :: 0 <= i < |t| - 1 ==> t[..|t| - 1][i] == t[i];
      init[t[|t| - 1].name := Odds(ProbabilityOf(m, t[|t| - 1].name))]
  }

  /** Every name of the table has odds. */
  predicate HasOdds(t: seq<Symbol>, odds: map<SymbolName, LineOdds>) {
    forall i :: 0 <= i < |t| ==> t[i].name in odds
  }

  /** `calculateSinglePaylineWinProbability`: the sum of the `atLeast3` odds. */
  function SingleLineWin(t: seq<Symbol>, odds: map<SymbolName, LineOdds>): real
    requires HasOdds(t, odds)
  {
    if t == [] then 0.0
    else SingleLineWin(t[..|t| - 1], odds) + odds[t[|t| - 1].name].atLeast3
  }

  /** `calculateOverallWinProbability`: one minus the chance that none of the 20 lines wins. */
  function OverallWin(single: real): real {
    1.0 - Pow(1.0 - single, TotalPaylines)
  }

  /** Expected damage of one symbol on one line: length multipliers 1, 1.5 and 2. */
  function SymbolExpectedDamage(s: Symbol, o: LineOdds): real {
    o.exactly3 * (s.damage as real) * 1.0 + o.exactly4 * (s.damage as real) * 1.5 + o.exactly5 * (s.damage as real) * 2.0
  }

  /** `calculateExpectedDamage`: over all 20 lines. */
  function ExpectedDamage(t: seq<Symbol>, odds: map<SymbolName, LineOdds>): real
    requires HasOdds(t, odds)
  {
    if t == [] then 0.0
    else ExpectedDamage(t[..|t| - 1], odds) + SymbolExpectedDamage(t[|t| - 1], odds[t[|t| - 1].name]) * (TotalPaylines as real)
  }

  /** `calculateRTP`; a zero spin cost divides by zero, which has no value here. */
  function RTP(expected: real, spinCost: real, ratio: real): Option<real> {
    if spinCost == 0.0 then None else Some((expected * ratio / spinCost) * 100.0)
  }

  /** The RTP with the default cost 1 and ratio 1. */
  function DefaultRTP(expected: real): real {
    expected * 100.0
  }

  /** The RTP a rarity map yields once the payline odds are rebuilt from it. */
  function RTPFor(m: map<SymbolName, real>): real {
    DefaultRTP(ExpectedDamage(SlotSymbols, OddsTable(SlotSymbols, m)))
  }

  /** The RTP of the shipped table. */
  function BaseRTP(): real {
    RTPFor(RarityMap(SlotSymbols))
  }

  /** `calculateJackpotProbability`: per spin, and the expected wait (none when the chance is 0). */
  datatype JackpotOdds = JackpotOdds(perSpin: real, expectedSpinsToJackpot: Option<real>)

  function JackpotChance(odds: map<SymbolName, LineOdds>): JackpotOdds
    requires HasOdds(SlotSymbols, odds)
  {
    assert SlotSymbols[0].name == Crystal;
    var perSpin := OverallWin(odds[Crystal].atLeast3);
    JackpotOdds(perSpin, if perSpin == 0.0 then None else Some(1.0 / perSpin))
  }

  // ---------------------------------------------------------------------
  // The simplified grid scan of the simulator
  // ---------------------------------------------------------------------

  /** A win found by `checkLineForWins`: the run's first symbol, its length and damage. */
  datatype LineWin = LineWin(symbol: Symbol, length: nat, damage: nat)

  function RunsToWins(line: seq<Symbol>, rs: seq<Run>): (ws: seq<LineWin>)
    requires forall j :: 0 <= j < |rs| ==> rs[j].start < |line|
    ensures |ws| == |rs|
  {
    if rs == [] then []
    else
      var r := rs[0];
      [LineWin(line[r.start], r.length, SlotEngine.MatchDamage(line[r.start], r.length))] + RunsToWins(line, rs[1..])
  }

  /** The wins of one line: one per qualifying run, left to right. */
  function LineWinsOf(line: seq<Symbol>): seq<LineWin> {
    RunsToWins(line, Qualifying(line))
  }

  function RowLine(row: nat): seq<nat> {
    seq(LinePositions, c => row * 5 + c)
  }

  function ColumnLine(col: nat): seq<nat> {
    seq(LinePositions, r => r * 5 + col)
  }

  function MainDiagonal(): seq<nat> {
    seq(LinePositions, i => i * 5 + i)
  }

  function AntiDiagonal(): seq<nat> {
    seq(LinePositions, i => i * 5 + (5 - 1 - i))
  }

  /** The 12 lines `analyzeGridForWins` reads: rows, columns, both diagonals. */
  function ScanLines(): seq<seq<nat>> {
    seq(5, k requires 0 <= k < 5 => RowLine(k)) + seq(5, k requires 0 <= k < 5 => ColumnLine(k)) + [MainDiagonal(), AntiDiagonal()]
  }

  predicate LinesOnGrid(ls: seq<seq<nat>>) {
    forall k, j :: 0 <= k < |ls| && 0 <= j < |ls[k]| ==> ls[k][j] < SlotEngine.TotalPositions
  }

  /** The symbols of a grid along a line of indices. */
  function Pick(grid: seq<Symbol>, cells: seq<nat>): (line: seq<Symbol>)
    requires forall j :: 0 <= j < |cells| ==> cells[j] < |grid|
    ensures |line| == |cells|
  {
    seq(|cells|, j requires 0 <= j < |cells| => grid[cells[j]])
  }

  /** The wins of a grid over a list of lines, line by line. */
  function GridWins(grid: seq<Symbol>, ls: seq<seq<nat>>): seq<LineWin>
    requires |grid| == SlotEngine.TotalPositions && LinesOnGrid(ls)
  {
    if ls == [] then []
    else GridWins(grid, ls[..|ls| - 1]) + LineWinsOf(Pick(grid, ls[|ls| - 1]))
  }

  function SumWinDamage(ws: seq<LineWin>): nat {
    if ws == [] then 0 else SumWinDamage(ws[..|ws| - 1]) + ws[|ws| - 1].damage
  }

  /** The grid drawn from 25 uniform values, in cell order. */
  function DrawnSymbols(us: seq<real>): (g: seq<Symbol>)
    ensures |g| == |us|
  {
    if us == [] then [] else DrawnSymbols(us[..|us| - 1]) + [Draw(SlotSymbols, us[|us| - 1])]
  }

  /** What `simulateSingleSpin` returns. */
  datatype SpinOutcome = SpinOutcome(grid: seq<Symbol>, wins: seq<LineWin>, hasWin: bool, totalDamage: nat)

  function OutcomeOf(us: seq<real>): SpinOutcome
    requires |us| == SlotEngine.TotalPositions
  {
    ScanLinesOnGrid();
    var grid := DrawnSymbols(us);
    var wins := GridWins(grid, ScanLines());
    SpinOutcome(grid, wins, |wins| > 0, SumWinDamage(wins))
  }

  /**
   * The counters of `simulateSpins`: spins, winning spins, damage, and the
   * wins per symbol name (`symbolWins`) and per run length (`matchLengthStats`),
   * each a multiset whose multiplicities are the counts (its ratios are not modelled).
   */
  datatype Simulation = Simulation(totalSpins: nat, totalWins: nat, totalDamage: nat,
                                   symbolWins: multiset<SymbolName>, matchLengths: multiset<nat>)

  /** The symbol names of a list of wins, one per win. */
  function WinNames(ws: seq<LineWin>): (m: multiset<SymbolName>)
    ensures |m| == |ws|
  {
    if ws == [] then multiset{} else WinNames(ws[..|ws| - 1]) + multiset{ws[|ws| - 1].symbol.name}
  }

  /** The run lengths of a list of wins, one per win. */
  function WinLengths(ws: seq<LineWin>): (m: multiset<nat>)
    ensures |m| == |ws|
  {
    if ws == [] then multiset{} else WinLengths(ws[..|ws| - 1]) + multiset{ws[|ws| - 1].length}
  }

  predicate SpinDraws(draws: seq<seq<real>>) {
    forall k :: 0 <= k < |draws| ==> |draws[k]| == SlotEngine.TotalPositions
  }

  function Tally(draws: seq<seq<real>>): Simulation
    requires SpinDraws(draws)
  {
    if draws == [] then Simulation(0, 0, 0, multiset{}, multiset{})
    else
      var prev := Tally(draws[..|draws| - 1]);
      var o := OutcomeOf(draws[|draws| - 1]);
      if o.hasWin then
        Simulation(prev.totalSpins + 1, prev.totalWins + 1, prev.totalDamage + o.totalDamage,
                   prev.symbolWins + WinNames(o.wins), prev.matchLengths + WinLengths(o.wins))
      else prev.(totalSpins := prev.totalSpins + 1)
  }

  /** One more spin adds its outcome to the tally. */
  lemma TallyStep(draws: seq<seq<real>>, k: nat)
    requires SpinDraws(draws) && k < |draws|
    ensures SpinDraws(draws[..k]) && SpinDraws(draws[..k + 1])
    ensures var prev := Tally(draws[..k]);
            var o := OutcomeOf(draws[k]);
            Tally(draws[..k + 1]) ==
              if o.hasWin then
                Simulation(prev.totalSpins + 1, prev.totalWins + 1, prev.totalDamage + o.totalDamage,
                           prev.symbolWins + WinNames(o.wins), prev.matchLengths + WinLengths(o.wins))
              else prev.(totalSpins := prev.totalSpins + 1)
  {
    assert draws[..k + 1][..k] == draws[..k];
  }

  // ---------------------------------------------------------------------
  // The optimiser
  // ---------------------------------------------------------------------

  /** One perturbed rarity: `max(0.01, min(0.5, rarity + (r - 0.5) * 0.02))`. */
  function Perturb(s: Symbol, r: real): Symbol {
    s.(rarity := MaxR(0.01, MinR(0.5, s.rarity + (r - 0.5) * 0.02)))
  }

  /** The candidate table: perturb each rarity, then divide by the new total. */
  function Candidate(t: seq<Symbol>, noise: seq<real>): (c: seq<Symbol>)
    requires |noise| == |t|
    ensures |c| == |t|
  {
    var perturbed := seq(|t|, k requires 0 <= k < |t| => Perturb(t[k], noise[k]));
    var total := Cumulative(perturbed, |perturbed|);
    seq(|t|, k requires 0 <= k < |t| => perturbed[k].(rarity := if total == 0.0 then 0.0 else perturbed[k].rarity / total))
  }

  /** What `optimizeForTargetRTP` returns. */
  datatype Optimization = Optimization(optimizedDistribution: seq<Symbol>, achievedRTP: real,
                                       targetRTP: real, iterations: nat)

  // ---------------------------------------------------------------------
  // The class
  // ---------------------------------------------------------------------

  class ProbabilitySystem {
    var symbolProbabilities: map<SymbolName, real>
    var paylineProbabilities: map<SymbolName, LineOdds>
    var simulationCache: map<nat, Simulation>

    /** Every shipped name has payline odds (the constructor builds them for all). */
    ghost predicate Valid()
      reads this
    {
      HasOdds(SlotSymbols, paylineProbabilities)
    }

    constructor()
      ensures symbolProbabilities == RarityMap(SlotSymbols)
      ensures paylineProbabilities == OddsTable(SlotSymbols, RarityMap(SlotSymbols))
      ensures simulationCache == map[]
      ensures Valid()
    {
      var m, total, warn := CalculateSymbolProbabilities(SlotSymbols);
      var odds := CalculatePaylineProbabilities(SlotSymbols, m);
      symbolProbabilities := m;
      paylineProbabilities := odds;
      simulationCache := map[];
    }

    function GetSymbolProbability(n: SymbolName): (p: real)
      reads this
      ensures n in symbolProbabilities ==> p == symbolProbabilities[n]
      ensures n !in symbolProbabilities ==> p == 0.0
    {
      ProbabilityOf(symbolProbabilities, n)
    }

    /** `calculateMinMatchProbability` for a name. */
    method CalculateMinMatchProbability(n: SymbolName, lo: nat, total: nat) returns (r: real)
      ensures r == MinMatchSum(GetSymbolProbability(n), lo, total)
    {
      r := MinMatchLoop(GetSymbolProbability(n), lo, total);
    }

    /** `calculateSinglePaylineWinProbability`. */
    method CalculateSinglePaylineWinProbability() returns (s: real)
      requires Valid()
      ensures s == SingleLineWin(SlotSymbols, paylineProbabilities)
    {
      s := 0.0;
      var i := 0;
      while i < |SlotSymbols|
        invariant 0 <= i <= |SlotSymbols|
        invariant s == SingleLineWin(SlotSymbols[..i], paylineProbabilities)
      {
        assert SlotSymbols[..i + 1][..i] == SlotSymbols[..i];
        s := s + paylineProbabilities[SlotSymbols[i].name].atLeast3;
        i := i + 1;
      }
      assert SlotSymbols[..i] == SlotSymbols;
    }

    /** `calculateOverallWinProbability`. */
    method CalculateOverallWinProbability() returns (w: real)
      requires Valid()
      ensures w == OverallWin(SingleLineWin(SlotSymbols, paylineProbabilities))
    {
      var single := CalculateSinglePaylineWinProbability();
      var noWin := PowLoop(1.0 - single, TotalPaylines);
      w := 1.0 - noWin;
    }

    /** `calculateExpectedDamage`. */
    method CalculateExpectedDamage() returns (e: real)
      requires Valid()
      ensures e == ExpectedDamage(SlotSymbols, paylineProbabilities)
    {
      e := 0.0;
      var i := 0;
      while i < |SlotSymbols|
        invariant 0 <= i <= |SlotSymbols|
        invariant e == ExpectedDamage(SlotSymbols[..i], paylineProbabilities)
      {
        assert SlotSymbols[..i + 1][..i] == SlotSymbols[..i];
        var symbol := SlotSymbols[i];
        e := e + SymbolExpectedDamage(symbol, paylineProbabilities[symbol.name]) * (TotalPaylines as real);
        i := i + 1;
      }
      assert SlotSymbols[..i] == SlotSymbols;
    }

    /** `calculateRTP`. */
    method CalculateRTP(spinCost: real, ratio: real) returns (r: Option<real>)
      requires Valid()
      ensures r == RTP(ExpectedDamage(SlotSymbols, paylineProbabilities), spinCost, ratio)
    {
      var expected := CalculateExpectedDamage();
      r := RTP(expected, spinCost, ratio);
    }

    /** `calculateJackpotProbability`. */
    method CalculateJackpotProbability() returns (j: JackpotOdds)
      requires Valid()
      ensures j == JackpotChance(paylineProbabilities)
    {
      assert SlotSymbols[0].name == Crystal;
      var perSpin := PowLoop(1.0 - paylineProbabilities[Crystal].atLeast3, TotalPaylines);
      perSpin := 1.0 - perSpin;
      j := JackpotOdds(perSpin, if perSpin == 0.0 then None else Some(1.0 / perSpin));
    }

    /** The `forEach` of `simulateSpins` over one spin's wins: one more count for its name and its length. */
    static method CountWins(symbolWins: multiset<SymbolName>, matchLengths: multiset<nat>, ws: seq<LineWin>)
      returns (symbolWins': multiset<SymbolName>, matchLengths': multiset<nat>)
      ensures symbolWins' == symbolWins + WinNames(ws)
      ensures matchLengths' == matchLengths + WinLengths(ws)
    {
      symbolWins', matchLengths' := symbolWins, matchLengths;
      var k := 0;
      while k < |ws|
        invariant 0 <= k <= |ws|
        invariant symbolWins' == symbolWins + WinNames(ws[..k])
        invariant matchLengths' == matchLengths + WinLengths(ws[..k])
      {
        assert ws[..k + 1][..k] == ws[..k];
        symbolWins' := symbolWins' + multiset{ws[k].symbol.name};
        matchLengths' := matchLengths' + multiset{ws[k].length};
        k := k + 1;
      }
      assert ws[..k] == ws;
    }

    /** `simulateSpins`: answer from the cache, or run and remember. */
    method SimulateSpins(numSpins: nat, draws: seq<seq<real>>) returns (r: Simulation)
      requires |draws| == numSpins && SpinDraws(draws)
      modifies this`simulationCache
      ensures numSpins in old(simulationCache) ==> r == old(simulationCache)[numSpins] && simulationCache == old(simulationCache)
      ensures numSpins !in old(simulationCache) ==> r == Tally(draws)
      ensures numSpins !in old(simulationCache) ==> simulationCache == old(simulationCache)[numSpins := r]
    {
      if numSpins in simulationCache {
        r := simulationCache[numSpins];
        return;
      }
      r := RunSpins(draws);
      simulationCache := simulationCache[numSpins := r];
    }

    /** The counting loop of `simulateSpins`, one simulated spin per element of `draws`. */
    static method RunSpins(draws: seq<seq<real>>) returns (r: Simulation)
      requires SpinDraws(draws)
      ensures r == Tally(draws)
    {
      var totalWins: nat := 0;
      var totalDamage: nat := 0;
      var symbolWins: multiset<SymbolName> := multiset{};
      var matchLengths: multiset<nat> := multiset{};
      var spin := 0;
      while spin < |draws|
        invariant 0 <= spin <= |draws|
        invariant Tally(draws[..spin]) == Simulation(spin, totalWins, totalDamage, symbolWins, matchLengths)
      {
        var result := SimulateSingleSpin(draws[spin]);
        if result.hasWin {
          totalWins := totalWins + 1;
          totalDamage := totalDamage + result.totalDamage;
          symbolWins, matchLengths := CountWins(symbolWins, matchLengths, result.wins);
        }
        TallyStep(draws, spin);
        spin := spin + 1;
      }
      assert draws[..spin] == draws;
      r := Simulation(|draws|, totalWins, totalDamage, symbolWins, matchLengths);
    }

    /**
     * `optimizeForTargetRTP` as written: each candidate's RTP is read from a
     * fresh system whose payline odds were built from the shipped table, so
     * the candidate's own rarities never enter it.
     */
    method OptimizeForTargetRTP(targetRTP: real, maxIterations: nat, noise: seq<seq<real>>) returns (r: Optimization)
      requires Valid() && paylineProbabilities == OddsTable(SlotSymbols, RarityMap(SlotSymbols))
      requires |noise| == maxIterations && forall k :: 0 <= k < |noise| ==> |noise[k]| == |SlotSymbols|
      ensures r.optimizedDistribution == SlotSymbols
      ensures r.achievedRTP == BaseRTP() && r.targetRTP == targetRTP
      ensures r.iterations == if Abs(BaseRTP() - targetRTP) > 1.0 then maxIterations else 0
    {
      var start := CalculateRTP(1.0, 1.0);
      r := SearchAsWritten(targetRTP, maxIterations, noise, start.value);
    }

    /**
     * The optimiser as evidently intended: the trial system's payline odds are
     * rebuilt from the candidate's rarities before its RTP is read.
     */
    method OptimizeForTargetRTPCorrected(targetRTP: real, maxIterations: nat, noise: seq<seq<real>>)
      returns (r: Optimization)
      requires Valid() && paylineProbabilities == OddsTable(SlotSymbols, RarityMap(SlotSymbols))
      requires |noise| == maxIterations && forall k :: 0 <= k < |noise| ==> |noise[k]| == |SlotSymbols|
      ensures r.achievedRTP == RTPFor(RarityMap(r.optimizedDistribution))
      ensures Abs(r.achievedRTP - targetRTP) <= Abs(BaseRTP() - targetRTP)
      ensures |r.optimizedDistribution| == |SlotSymbols| && r.targetRTP == targetRTP
      ensures r.iterations <= maxIterations
      ensures r.iterations < maxIterations ==> Abs(r.achievedRTP - targetRTP) <= 1.0
    {
      var start := CalculateRTP(1.0, 1.0);
      r := SearchCorrected(targetRTP, maxIterations, noise, start.value);
    }
  }

  // ---------------------------------------------------------------------
  // The optimiser's search loop
  // ---------------------------------------------------------------------

  /** One trial as written: a fresh system with the candidate's rarities but the old payline odds. */
  method TrialAsWritten(candidate: seq<Symbol>) returns (rtp: real)
    ensures rtp == BaseRTP()
  {
    var tempSystem := new ProbabilitySystem();
    var m, total, warn := CalculateSymbolProbabilities(candidate);
    tempSystem.symbolProbabilities := m;
    var testRTP := tempSystem.CalculateRTP(1.0, 1.0);
    rtp := testRTP.value;
  }

  /** One trial with the payline odds rebuilt from the candidate's rarities. */
  method TrialCorrected(candidate: seq<Symbol>) returns (rtp: real)
    ensures rtp == RTPFor(RarityMap(candidate))
  {
    var tempSystem := new ProbabilitySystem();
    var m, total, warn := CalculateSymbolProbabilities(candidate);
    tempSystem.symbolProbabilities := m;
    var odds := CalculatePaylineProbabilities(SlotSymbols, m);
    tempSystem.paylineProbabilities := odds;
    var testRTP := tempSystem.CalculateRTP(1.0, 1.0);
    rtp := testRTP.value;
  }

  method SearchAsWritten(targetRTP: real, maxIterations: nat, noise: seq<seq<real>>, startRTP: real)
    returns (r: Optimization)
    requires startRTP == BaseRTP()
    requires |noise| == maxIterations && forall k :: 0 <= k < |noise| ==> |noise[k]| == |SlotSymbols|
    ensures r.optimizedDistribution == SlotSymbols
    ensures r.achievedRTP == BaseRTP() && r.targetRTP == targetRTP
    ensures r.iterations == if Abs(BaseRTP() - targetRTP) > 1.0 then maxIterations else 0
  {
    var bestDistribution := SlotSymbols;
    var bestRTP := startRTP;
    var iteration := 0;
    while Abs(bestRTP - targetRTP) > 1.0 && iteration < maxIterations
      invariant 0 <= iteration <= maxIterations
      invariant bestDistribution == SlotSymbols && bestRTP == BaseRTP()
      decreases maxIterations - iteration
      invariant Abs(BaseRTP() - targetRTP) <= 1.0 ==> iteration == 0
    {
      var testDistribution := Candidate(bestDistribution, noise[iteration]);
      var testRTP := TrialAsWritten(testDistribution);
      if Abs(testRTP - targetRTP) < Abs(bestRTP - targetRTP) {
        bestDistribution := testDistribution;
        bestRTP := testRTP;
      }
      iteration := iteration + 1;
    }
    r := Optimization(bestDistribution, bestRTP, targetRTP, iteration);
  }

  method SearchCorrected(targetRTP: real, maxIterations: nat, noise: seq<seq<real>>, startRTP: real)
    returns (r: Optimization)
    requires startRTP == BaseRTP()
    requires |noise| == maxIterations && forall k :: 0 <= k < |noise| ==> |noise[k]| == |SlotSymbols|
    ensures r.achievedRTP == RTPFor(RarityMap(r.optimizedDistribution))
    ensures Abs(r.achievedRTP - targetRTP) <= Abs(BaseRTP() - targetRTP)
    ensures |r.optimizedDistribution| == |SlotSymbols| && r.targetRTP == targetRTP
    ensures r.iterations <= maxIterations
    ensures r.iterations < maxIterations ==> Abs(r.achievedRTP - targetRTP) <= 1.0
  {
    var bestDistribution := SlotSymbols;
    var bestRTP := startRTP;
    var iteration := 0;
    while Abs(bestRTP - targetRTP) > 1.0 && iteration < maxIterations
      invariant 0 <= iteration <= maxIterations
      invariant |bestDistribution| == |SlotSymbols|
      invariant bestRTP == RTPFor(RarityMap(bestDistribution))
      invariant Abs(bestRTP - targetRTP) <= Abs(BaseRTP() - targetRTP)
      decreases maxIterations - iteration
    {
      var testDistribution := Candidate(bestDistribution, noise[iteration]);
      var testRTP := TrialCorrected(testDistribution);
      if Abs(testRTP - targetRTP) < Abs(bestRTP - targetRTP) {
        bestDistribution := testDistribution;
        bestRTP := testRTP;
      }
      iteration := iteration + 1;
    }
    r := Optimization(bestDistribution, bestRTP, targetRTP, iteration);
  }

  // ---------------------------------------------------------------------
  // Loops shared by the class
  // ---------------------------------------------------------------------

  /** `Math.pow` by repeated multiplication. */
  method PowLoop(x: real, n: nat) returns (r: real)
    ensures r == Pow(x, n)
  {
    r := 1.0;
    var i := 0;
    while i < n
      invariant 0 <= i <= n && r == Pow(x, i)
    {
      r := x * r;
      i := i + 1;
    }
  }

  /** `calculateMatchProbability`. */
  method CalculateMatchProbability(p: real, n: nat, total: nat) returns (r: real)
    ensures r == MatchProbability(p, n, total)
  {
    r := PowLoop(p, n);
    if n != total {
      r := r * (1.0 - p);
    }
  }

  /** The loop of `calculateMinMatchProbability`, summing lengths `lo..total`. */
  method MinMatchLoop(p: real, lo: nat, total: nat) returns (r: real)
    ensures r == MinMatchSum(p, lo, total)
  {
    r := 0.0;
    var length := lo;
    while length <= total
      invariant lo <= length
      invariant r + MinMatchSum(p, length, total) == MinMatchSum(p, lo, total)
      decreases total + 1 - length
    {
      var m := CalculateMatchProbability(p, length, total);
      r := r + m;
      length := length + 1;
    }
  }

  /** `calculatePaylineProbabilities`. */
  method CalculatePaylineProbabilities(t: seq<Symbol>, m: map<SymbolName, real>) returns (r: map<SymbolName, LineOdds>)
    ensures r == OddsTable(t, m)
  {
    r := map[];
    var i := 0;
    while i < |t|
      invariant 0 <= i <= |t|
      invariant r == OddsTable(t[..i], m)
    {
      var p := ProbabilityOf(m, t[i].name);
      var e3 := CalculateMatchProbability(p, 3, LinePositions);
      var e4 := CalculateMatchProbability(p, 4, LinePositions);
      var e5 := CalculateMatchProbability(p, 5, LinePositions);
      var atLeast3 := MinMatchLoop(p, MinMatchLength, LinePositions);
      OddsTableStep(t, m, i);
      r := r[t[i].name := LineOdds(e3, e4, e5, atLeast3)];
      i := i + 1;
    }
    assert t[..i] == t;
  }

  /** `getRandomSymbol` of the probability module: the same weighted draw. */
  method DrawGrid(us: seq<real>) returns (grid: seq<Symbol>)
    ensures grid == DrawnSymbols(us)
  {
    grid := [];
    var i := 0;
    while i < |us|
      invariant 0 <= i <= |us|
      invariant grid == DrawnSymbols(us[..i])
    {
      assert us[..i + 1][..i] == us[..i];
      assert DrawnSymbols(us[..i + 1]) == DrawnSymbols(us[..i]) + [Draw(SlotSymbols, us[i])];
      var s := GetRandomSymbol(SlotSymbols, us[i]);
      grid := grid + [s];
      i := i + 1;
    }
    assert us[..i] == us;
  }

  /** `simulateSingleSpin`. */
  method SimulateSingleSpin(us: seq<real>) returns (o: SpinOutcome)
    requires |us| == SlotEngine.TotalPositions
    ensures o == OutcomeOf(us)
  {
    var grid := DrawGrid(us);
    var wins := AnalyzeGridForWins(grid);
    o := SpinOutcome(grid, wins, |wins| > 0, SumWinDamage(wins));
  }

  /** `checkLineForWins`: the run scan of one line. */
  method CheckLineForWins(line: seq<Symbol>) returns (wins: seq<LineWin>)
    ensures wins == LineWinsOf(line)
  {
    wins := [];
    if |line| == 0 {
      return;
    }
    var curSymbol := line[0];
    var curLength := 1;
    ghost var start := 0;
    ghost var total := LineWinsOf(line);
    var i := 1;
    while i < |line|
      invariant 1 <= i <= |line| && 0 <= start < i
      invariant curLength == i - start && curSymbol == line[start]
      invariant forall m :: start <= m < i ==> line[m].name == line[start].name
      invariant wins + RunsToWins(line, QualifyingFrom(line, start)) == total
    {
      if line[i].name == curSymbol.name {
        curLength := curLength + 1;
      } else {
        wins := CloseCurrentRun(line, start, i, wins, total, curSymbol, curLength);
        curSymbol := line[i];
        curLength := 1;
        start := i;
      }
      i := i + 1;
    }
    wins := CloseCurrentRun(line, start, i, wins, total, curSymbol, curLength);
  }

  /** The step of `checkLineForWins` that ends the current run: push it when it is long enough. */
  method CloseCurrentRun(line: seq<Symbol>, ghost start: nat, i: nat, wins: seq<LineWin>, ghost total: seq<LineWin>,
                         curSymbol: Symbol, curLength: nat) returns (wins': seq<LineWin>)
    requires start < i <= |line| && curLength == i - start && curSymbol == line[start]
    requires forall m :: start <= m < i ==> line[m].name == line[start].name
    requires i < |line| ==> line[i].name != line[start].name
    requires wins + RunsToWins(line, QualifyingFrom(line, start)) == total
    ensures wins' + RunsToWins(line, QualifyingFrom(line, i)) == total
    ensures wins' == wins + ClosedWin(line, start, i)
  {
    LineScanCloses(line, start, i);
    ShiftWins(wins, ClosedWin(line, start, i), RunsToWins(line, QualifyingFrom(line, i)), total);
    if curLength >= MinMatchLength {
      wins' := wins + [LineWin(curSymbol, curLength, SlotEngine.MatchDamage(curSymbol, curLength))];
    } else {
      wins' := wins;
      assert wins + [] == wins;
    }
  }

  /** `analyzeGridForWins`: rows, columns, main diagonal, anti-diagonal. */
  method AnalyzeGridForWins(grid: seq<Symbol>) returns (wins: seq<LineWin>)
    requires |grid| == SlotEngine.TotalPositions
    ensures LinesOnGrid(ScanLines()) && wins == GridWins(grid, ScanLines())
  {
    ScanLinesOnGrid();
    ScanLinesLayout();
    wins := ScanInOrder(grid, ScanLines());
  }

  /** The scan of `analyzeGridForWins` over lines laid out as rows, columns and diagonals. */
  method ScanInOrder(grid: seq<Symbol>, ghost L: seq<seq<nat>>) returns (wins: seq<LineWin>)
    requires |grid| == SlotEngine.TotalPositions && LinesOnGrid(L) && Layout(L)
    ensures wins == GridWins(grid, L)
  {
    wins := [];
    var row := 0;
    while row < 5
      invariant 0 <= row <= 5 && wins == GridWins(grid, L[..row])
    {
      var line := RowOf(grid, row);
      wins := AddLineWins(grid, L, row, line, wins);
      row := row + 1;
    }
    var col := 0;
    while col < 5
      invariant 0 <= col <= 5 && wins == GridWins(grid, L[..5 + col])
    {
      var line := ColumnOf(grid, col);
      wins := AddLineWins(grid, L, 5 + col, line, wins);
      col := col + 1;
    }
    var mainDiagonal := MainDiagonalOf(grid);
    wins := AddLineWins(grid, L, 10, mainDiagonal, wins);
    var antiDiagonal := AntiDiagonalOf(grid);
    wins := AddLineWins(grid, L, 11, antiDiagonal, wins);
    WholePrefix(L);
  }

  /** Five rows, five columns, the main diagonal and the anti-diagonal, in that order. */
  ghost predicate Layout(L: seq<seq<nat>>) {
    |L| == 12 && (forall k :: 0 <= k < 5 ==> L[k] == RowLine(k)) &&
    (forall k :: 5 <= k < 10 ==> L[k] == ColumnLine(k - 5)) &&
    L[10] == MainDiagonal() && L[11] == AntiDiagonal()
  }

  lemma ScanLinesLayout()
    ensures Layout(ScanLines())
  {
  }

  /** Scan one more line and append its wins. */
  method AddLineWins(grid: seq<Symbol>, ghost L: seq<seq<nat>>, k: nat, line: seq<Symbol>, wins: seq<LineWin>)
    returns (wins': seq<LineWin>)
    requires |grid| == SlotEngine.TotalPositions && LinesOnGrid(L) && k < |L|
    requires line == Pick(grid, L[k]) && wins == GridWins(grid, L[..k])
    ensures LinesOnGrid(L[..k + 1]) && wins' == GridWins(grid, L[..k + 1])
  {
    var lineWins := CheckLineForWins(line);
    GridWinsStep(grid, L, k);
    wins' := wins + lineWins;
  }

  method RowOf(grid: seq<Symbol>, row: nat) returns (line: seq<Symbol>)
    requires |grid| == SlotEngine.TotalPositions && row < 5
    ensures line == Pick(grid, RowLine(row))
  {
    var lineStart := row * 5;
    line := grid[lineStart..lineStart + 5];
  }

  method ColumnOf(grid: seq<Symbol>, col: nat) returns (line: seq<Symbol>)
    requires |grid| == SlotEngine.TotalPositions && col < 5
    ensures line == Pick(grid, ColumnLine(col))
  {
    line := [];
    var r := 0;
    while r < 5
      invariant 0 <= r <= 5 && |line| == r
      invariant forall j :: 0 <= j < r ==> line[j] == grid[j * 5 + col]
    {
      line := line + [grid[r * 5 + col]];
      r := r + 1;
    }
  }

  method MainDiagonalOf(grid: seq<Symbol>) returns (line: seq<Symbol>)
    requires |grid| == SlotEngine.TotalPositions
    ensures line == Pick(grid, MainDiagonal())
  {
    line := [];
    var i := 0;
    while i < 5
      invariant 0 <= i <= 5 && |line| == i
      invariant forall j :: 0 <= j < i ==> line[j] == grid[j * 5 + j]
    {
      line := line + [grid[i * 5 + i]];
      i := i + 1;
    }
  }

  method AntiDiagonalOf(grid: seq<Symbol>) returns (line: seq<Symbol>)
    requires |grid| == SlotEngine.TotalPositions
    ensures line == Pick(grid, AntiDiagonal())
  {
    line := [];
    var i := 0;
    while i < 5
      invariant 0 <= i <= 5 && |line| == i
      invariant forall j :: 0 <= j < i ==> line[j] == grid[j * 5 + (5 - 1 - j)]
    {
      line := line + [grid[i * 5 + (5 - 1 - i)]];
      i := i + 1;
    }
  }

  lemma WholePrefix<T>(s: seq<T>)
    ensures s[..|s|] == s
  {
  }

  // ---------------------------------------------------------------------
  // Proof steps
  // ---------------------------------------------------------------------

  /** The win a closed run `start..i` contributes: one when it is long enough. */
  function ClosedWin(line: seq<Symbol>, start: nat, i: nat): seq<LineWin>
    requires start < i <= |line|
  {
    if i - start >= MinMatchLength
    then [LineWin(line[start], i - start, SlotEngine.MatchDamage(line[start], i - start))]
    else []
  }

  /** Closing the run `start..i` of a line scan appends at most one win. */
  lemma LineScanCloses(line: seq<Symbol>, start: nat, i: nat)
    requires start < i <= |line|
    requires forall m :: start <= m < i ==> line[m].name == line[start].name
    requires i < |line| ==> line[i].name != line[start].name
    ensures RunsToWins(line, QualifyingFrom(line, start)) == ClosedWin(line, start, i) + RunsToWins(line, QualifyingFrom(line, i))
    ensures i == |line| ==> QualifyingFrom(line, i) == []
  {
    CloseRun(line, start, i);
    var closed := if i - start >= MinMatchLength then [Run(start, i - start)] else [];
    ClosedWinOfRun(line, start, i);
    RunsToWinsAppend(line, closed, QualifyingFrom(line, i));
  }

  lemma ClosedWinOfRun(line: seq<Symbol>, start: nat, i: nat)
    requires start < i <= |line|
    ensures RunsToWins(line, if i - start >= MinMatchLength then [Run(start, i - start)] else []) == ClosedWin(line, start, i)
  {
  }

  /** The wins of two lists of runs, one after the other. */
  lemma {:induction false} RunsToWinsAppend(line: seq<Symbol>, a: seq<Run>, b: seq<Run>)
    requires forall j :: 0 <= j < |a| ==> a[j].start < |line|
    requires forall j :: 0 <= j < |b| ==> b[j].start < |line|
    ensures forall j :: 0 <= j < |a + b| ==> (a + b)[j].start < |line|
    ensures RunsToWins(line, a + b) == RunsToWins(line, a) + RunsToWins(line, b)
    decreases |a|
  {
    if a == [] {
      assert a + b == b;
    } else {
      RunsToWinsAppend(line, a[1..], b);
      assert (a + b)[1..] == a[1..] + b;
    }
  }

  lemma ShiftWins(wins: seq<LineWin>, x: seq<LineWin>, y: seq<LineWin>, total: seq<LineWin>)
    requires wins + (x + y) == total
    ensures (wins + x) + y == total
  {
  }

  lemma OddsTableStep(t: seq<Symbol>, m: map<SymbolName, real>, i: nat)
    requires i < |t|
    ensures OddsTable(t[..i + 1], m) == OddsTable(t[..i], m)[t[i].name := Odds(ProbabilityOf(m, t[i].name))]
  {
    assert t[..i + 1][..i] == t[..i];
    assert t[..i + 1][i] == t[i];
  }

  lemma GridWinsStep(grid: seq<Symbol>, L: seq<seq<nat>>, k: nat)
    requires |grid| == SlotEngine.TotalPositions && LinesOnGrid(L) && k < |L|
    ensures LinesOnGrid(L[..k]) && LinesOnGrid(L[..k + 1])
    ensures GridWins(grid, L[..k + 1]) == GridWins(grid, L[..k]) + LineWinsOf(Pick(grid, L[k]))
  {
    assert L[..k + 1][..k] == L[..k];
  }

  lemma ScanLinesOnGrid()
    ensures LinesOnGrid(ScanLines())
  {
    ScanLinesAreEnginePaylines();
  }

  // ---------------------------------------------------------------------
  // Properties
  // ---------------------------------------------------------------------

  /** The shipped rarities sum to exactly 1, so the constructor raises no warning. */
  lemma ShippedTableNoWarning()
    ensures !Warns(Cumulative(SlotSymbols, |SlotSymbols|))
    ensures forall i :: 0 <= i < |SlotSymbols| ==>
              ProbabilityOf(RarityMap(SlotSymbols), SlotSymbols[i].name) == SlotSymbols[i].rarity
  {
    SlotSymbolsSumToOne();
    SlotNamesUnique();
    forall i | 0 <= i < |SlotSymbols|
      ensures ProbabilityOf(RarityMap(SlotSymbols), SlotSymbols[i].name) == SlotSymbols[i].rarity
    {
      RarityMapAt(SlotSymbols, i);
    }
  }

  lemma SlotNamesUnique()
    ensures forall a, b :: 0 <= a < b < |SlotSymbols| ==> SlotSymbols[a].name != SlotSymbols[b].name
  {
  }

  /** With unique names, the map holds each entry's own rarity. */
  lemma {:induction false} RarityMapAt(t: seq<Symbol>, i: nat)
    requires i < |t|
    requires forall a, b :: 0 <= a < b < |t| ==> t[a].name != t[b].name
    ensures t[i].name in RarityMap(t) && RarityMap(t)[t[i].name] == t[i].rarity
  {
    var n := |t| - 1;
    if i < n {
      var init := t[..n];
      assert init[i] == t[i];
      RarityMapAt(init, i);
    }
  }


  /**
   * Over the map built from a table with unique names, `getSymbolProbability`
   * gives a table name its entry's rarity and any other name 0.
   */
  lemma TableNameProbability(t: seq<Symbol>, n: SymbolName)
    requires forall a, b :: 0 <= a < b < |t| ==> t[a].name != t[b].name
    ensures forall i :: 0 <= i < |t| && t[i].name == n ==> ProbabilityOf(RarityMap(t), n) == t[i].rarity
    ensures (forall j :: 0 <= j < |t| ==> t[j].name != n) ==> ProbabilityOf(RarityMap(t), n) == 0.0
  {
    forall i | 0 <= i < |t| && t[i].name == n
      ensures ProbabilityOf(RarityMap(t), n) == t[i].rarity
    {
      RarityMapAt(t, i);
    }
  }

  /**
   * The sum over lengths `lo..total` telescopes: at least `lo` in a row has
   * probability `p^lo`, whatever `p` is.
   */
  lemma {:induction false} MinMatchTelescopes(p: real, lo: nat, total: nat)
    requires lo <= total
    ensures MinMatchSum(p, lo, total) == Pow(p, lo)
    decreases total - lo
  {
    if lo == total {
      assert MinMatchSum(p, lo + 1, total) == 0.0;
    } else {
      MinMatchTelescopes(p, lo + 1, total);
      assert Pow(p, lo + 1) == p * Pow(p, lo);
    }
  }

  /** The `atLeast3` odds are the three exact odds together, that is `p^3`. */
  lemma OddsConsistent(p: real)
    ensures Odds(p).atLeast3 == Odds(p).exactly3 + Odds(p).exactly4 + Odds(p).exactly5
    ensures Odds(p).atLeast3 == Pow(p, 3)
    ensures Odds(p).exactly5 == Pow(p, 5)
  {
    MinMatchTelescopes(p, 3, 5);
    assert MinMatchSum(p, 6, 5) == 0.0;
  }

  lemma {:induction false} PowInUnit(x: real, n: nat)
    requires 0.0 < x < 1.0 && n > 0
    ensures 0.0 < Pow(x, n) < 1.0
  {
    if n > 1 {
      PowInUnit(x, n - 1);
      assert Pow(x, n) == x * Pow(x, n - 1);
    }
  }

  /** Twenty independent lines: the overall win probability lies strictly between 0 and 1. */
  lemma OverallWinInUnit(single: real)
    requires 0.0 < single < 1.0
    ensures 0.0 < OverallWin(single) < 1.0
    ensures OverallWin(single) >= single
  {
    PowInUnit(1.0 - single, TotalPaylines);
    PowAtMost(1.0 - single, TotalPaylines);
  }

  /**
   * `calculateJackpotProbability` gives a probability: when Crystal's chance of
   * a run on one line lies strictly between 0 and 1, so does the chance per
   * spin, which is at least the single-line chance, and the expected wait is
   * its reciprocal.
   */
  lemma JackpotChanceInUnit(odds: map<SymbolName, LineOdds>)
    requires HasOdds(SlotSymbols, odds)
    requires Crystal in odds && 0.0 < odds[Crystal].atLeast3 < 1.0
    ensures 0.0 < JackpotChance(odds).perSpin < 1.0
    ensures JackpotChance(odds).perSpin >= odds[Crystal].atLeast3
    ensures JackpotChance(odds).expectedSpinsToJackpot == Some(1.0 / JackpotChance(odds).perSpin)
  {
    OverallWinInUnit(odds[Crystal].atLeast3);
  }

  lemma {:induction false} PowAtMost(x: real, n: nat)
    requires 0.0 <= x <= 1.0 && n > 0
    ensures 0.0 <= Pow(x, n) <= x
  {
    var q := Pow(x, n - 1);
    assert Pow(x, n) == x * q;
    if n == 1 {
      assert q == 1.0;
    } else {
      PowAtMost(x, n - 1);
      ScaleDown(x, q);
    }
  }

  lemma ScaleDown(x: real, q: real)
    requires 0.0 <= x && 0.0 <= q <= 1.0
    ensures 0.0 <= x * q <= x
  {
    assert x * (1.0 - q) >= 0.0;
  }

  /** The payline total is 20, the number of lines the engine scans. */
  lemma TotalPaylinesMatchesEngine()
    ensures TotalPaylines == |SlotEngine.AllPaylines| == 20
  {
  }

  /** The shipped odds of a single line: the sum of the cubed rarities, 17/800. */
  lemma {:induction false} ShippedSingleLineWin()
    ensures HasOdds(SlotSymbols, OddsTable(SlotSymbols, RarityMap(SlotSymbols)))
    ensures SingleLineWin(SlotSymbols, OddsTable(SlotSymbols, RarityMap(SlotSymbols))) == 17.0 / 800.0
    ensures 0.0 < OverallWin(17.0 / 800.0) < 1.0
  {
    OddsFromTable(SlotSymbols);
    var odds := OddsTable(SlotSymbols, RarityMap(SlotSymbols));
    forall i | 0 <= i < |SlotSymbols|
      ensures odds[SlotSymbols[i].name].atLeast3 == Pow(SlotSymbols[i].rarity, 3)
    {
      OddsConsistent(SlotSymbols[i].rarity);
    }
    ShippedCubes(odds);
    OverallWinInUnit(17.0 / 800.0);
  }

  lemma ShippedCubes(odds: map<SymbolName, LineOdds>)
    requires HasOdds(SlotSymbols, odds)
    requires forall i :: 0 <= i < |SlotSymbols| ==> odds[SlotSymbols[i].name].atLeast3 == Pow(SlotSymbols[i].rarity, 3)
    ensures SingleLineWin(SlotSymbols, odds) == 17.0 / 800.0
  {
    var t := SlotSymbols;
    PrefixSteps(t);
    assert SingleLineWin(t[..1], odds) == 0.001;
    assert SingleLineWin(t[..2], odds) == 0.004375;
    assert SingleLineWin(t[..3], odds) == 0.00775;
    assert SingleLineWin(t[..4], odds) == 0.00875;
    assert SingleLineWin(t[..5], odds) == 0.01675;
    assert SingleLineWin(t[..6], odds) == 0.020125;
    assert SingleLineWin(t[..7], odds) == 0.021125;
  }

  /** With unique names, the odds stored for an entry are the odds of its rarity. */
  lemma {:induction false} OddsTableAt(t: seq<Symbol>, m: map<SymbolName, real>, i: nat)
    requires i < |t|
    requires forall a, b :: 0 <= a < b < |t| ==> t[a].name != t[b].name
    ensures OddsTable(t, m)[t[i].name] == Odds(ProbabilityOf(m, t[i].name))
  {
    var n := |t| - 1;
    if i < n {
      var init := t[..n];
      assert init[i] == t[i];
      OddsTableAt(init, m, i);
    }
  }

  /** `calculateRTP` has a value for every non-zero spin cost and scales with the ratio. */
  lemma RTPSound(expected: real, spinCost: real, ratio: real)
    ensures RTP(expected, spinCost, ratio).None? <==> spinCost == 0.0
    ensures RTP(expected, 1.0, 1.0) == Some(DefaultRTP(expected))
    ensures spinCost != 0.0 ==> RTP(expected, spinCost, ratio).value * spinCost == expected * ratio * 100.0
  {
  }

  lemma {:induction false} RunsToWinsAt(line: seq<Symbol>, rs: seq<Run>, j: nat)
    requires forall k :: 0 <= k < |rs| ==> rs[k].start < |line|
    requires j < |rs|
    ensures RunsToWins(line, rs)[j] ==
            LineWin(line[rs[j].start], rs[j].length, SlotEngine.MatchDamage(line[rs[j].start], rs[j].length))
  {
    if j > 0 {
      RunsToWinsAt(line, rs[1..], j - 1);
    }
  }

  /**
   * Each win of a line is a block of at least three equal names, its symbol is
   * the block's first cell and its damage is `calculateMatchDamage` of its
   * length; a five-cell line has at most one; and a line with three equal
   * names in a row has a win.
   */
  lemma LineWinsSound(line: seq<Symbol>)
    ensures forall w :: w in LineWinsOf(line) ==>
              MinMatchLength <= w.length <= |line| && w.damage == SlotEngine.MatchDamage(w.symbol, w.length)
    ensures forall j :: 0 <= j < |LineWinsOf(line)| ==>
              exists a :: 0 <= a && a + LineWinsOf(line)[j].length <= |line| && line[a] == LineWinsOf(line)[j].symbol &&
                          forall m :: a <= m < a + LineWinsOf(line)[j].length ==> line[m].name == line[a].name
    ensures |line| <= 5 ==> |LineWinsOf(line)| <= 1
    ensures forall a :: 0 <= a && a + 2 < |line| && line[a].name == line[a + 1].name == line[a + 2].name ==>
              |LineWinsOf(line)| > 0
  {
    QualifyingSound(line);
    var rs := Qualifying(line);
    var ws := LineWinsOf(line);
    forall j | 0 <= j < |ws|
      ensures MinMatchLength <= ws[j].length <= |line| && ws[j].damage == SlotEngine.MatchDamage(ws[j].symbol, ws[j].length)
      ensures exists a :: 0 <= a && a + ws[j].length <= |line| && line[a] == ws[j].symbol &&
                          forall m :: a <= m < a + ws[j].length ==> line[m].name == line[a].name
    {
      RunsToWinsAt(line, rs, j);
      var a := rs[j].start;
      assert forall m :: a <= m < a + rs[j].length ==> line[m].name == line[a].name;
    }
    forall a | 0 <= a && a + 2 < |line| && line[a].name == line[a + 1].name == line[a + 2].name
      ensures |ws| > 0
    {
      QualifyingComplete(line, a, a + 3);
    }
  }

  /** The simulator's 12 lines are exactly the engine's horizontal, vertical and diagonal paylines. */
  lemma ScanLinesAreEnginePaylines()
    ensures ScanLines() == SlotEngine.Horizontal + SlotEngine.Vertical + SlotEngine.Diagonal
    ensures |ScanLines()| == 12
  {
    assert RowLine(0) == SlotEngine.Horizontal[0];
    assert RowLine(1) == SlotEngine.Horizontal[1];
    assert RowLine(2) == SlotEngine.Horizontal[2];
    assert RowLine(3) == SlotEngine.Horizontal[3];
    assert RowLine(4) == SlotEngine.Horizontal[4];
    assert ColumnLine(0) == SlotEngine.Vertical[0];
    assert ColumnLine(1) == SlotEngine.Vertical[1];
    assert ColumnLine(2) == SlotEngine.Vertical[2];
    assert ColumnLine(3) == SlotEngine.Vertical[3];
    assert ColumnLine(4) == SlotEngine.Vertical[4];
    assert MainDiagonal() == SlotEngine.Diagonal[0];
    assert AntiDiagonal() == SlotEngine.Diagonal[1];
  }

  /**
   * A simulation counts every spin, and at most every spin wins; every win is
   * counted once under its symbol and once under its length, which is 3, 4 or 5,
   * and a simulation without a winning spin counts no win at all.
   */
  lemma {:induction false} TallyCounts(draws: seq<seq<real>>)
    requires SpinDraws(draws)
    ensures Tally(draws).totalSpins == |draws|
    ensures Tally(draws).totalWins <= Tally(draws).totalSpins
    ensures Tally(draws).totalWins == 0 ==>
              Tally(draws).totalDamage == 0 && Tally(draws).symbolWins == multiset{} &&
              Tally(draws).matchLengths == multiset{}
    ensures |Tally(draws).symbolWins| == |Tally(draws).matchLengths| >= Tally(draws).totalWins
    ensures forall n :: n in Tally(draws).matchLengths ==> MinMatchLength <= n <= LinePositions
  {
    TallyLengthsWithin(draws);
    if draws != [] {
      TallyCounts(draws[..|draws| - 1]);
    }
  }

  /** Every length a simulation counts is 3, 4 or 5. */
  lemma {:induction false} TallyLengthsWithin(draws: seq<seq<real>>)
    requires SpinDraws(draws)
    ensures forall n :: n in Tally(draws).matchLengths ==> MinMatchLength <= n <= LinePositions
  {
    if draws != [] {
      TallyLengthsWithin(draws[..|draws| - 1]);
      var us := draws[|draws| - 1];
      ScanLinesOnGrid();
      ScanLinesLayout();
      GridWinLengths(DrawnSymbols(us), ScanLines());
      WinLengthsWithin(OutcomeOf(us).wins, MinMatchLength, LinePositions);
    }
  }

  /** Every win of a grid over lines of at most five cells is 3 to 5 long. */
  lemma {:induction false} GridWinLengths(grid: seq<Symbol>, ls: seq<seq<nat>>)
    requires |grid| == SlotEngine.TotalPositions && LinesOnGrid(ls)
    requires forall k :: 0 <= k < |ls| ==> |ls[k]| <= LinePositions
    ensures forall w :: w in GridWins(grid, ls) ==> MinMatchLength <= w.length <= LinePositions
  {
    if ls != [] {
      var init := ls[..|ls| - 1];
      assert LinesOnGrid(init);
      GridWinLengths(grid, init);
      LineWinsSound(Pick(grid, ls[|ls| - 1]));
    }
  }

  /** The lengths counted for a list of wins are the wins' own lengths. */
  lemma {:induction false} WinLengthsWithin(ws: seq<LineWin>, lo: nat, hi: nat)
    requires forall w :: w in ws ==> lo <= w.length <= hi
    ensures forall n :: n in WinLengths(ws) ==> lo <= n <= hi
  {
    if ws != [] {
      assert forall w :: w in ws[..|ws| - 1] ==> w in ws;
      WinLengthsWithin(ws[..|ws| - 1], lo, hi);
    }
  }

  /**
   * The shipped table's RTP is 1014.3059375%, so with the default target of
   * 95 the as-written optimiser always runs all its iterations.
   */
  lemma ShippedRTP()
    ensures BaseRTP() == 1014.3059375
  {
    OddsFromTable(SlotSymbols);
    ShippedExpectedDamage(OddsTable(SlotSymbols, RarityMap(SlotSymbols)));
  }

  /** A table with the shipped names in the shipped order yields the odds of its own rarities. */
  lemma OddsFromTable(c: seq<Symbol>)
    requires |c| == |SlotSymbols| && forall i :: 0 <= i < |c| ==> c[i].name == SlotSymbols[i].name
    ensures HasOdds(SlotSymbols, OddsTable(SlotSymbols, RarityMap(c)))
    ensures forall i :: 0 <= i < |SlotSymbols| ==>
              OddsTable(SlotSymbols, RarityMap(c))[SlotSymbols[i].name] == Odds(c[i].rarity)
  {
    SlotNamesUnique();
    var m := RarityMap(c);
    forall i | 0 <= i < |SlotSymbols|
      ensures OddsTable(SlotSymbols, m)[SlotSymbols[i].name] == Odds(c[i].rarity)
    {
      RarityMapAt(c, i);
      OddsTableAt(SlotSymbols, m, i);
    }
  }

  /** Expected damage of one symbol in closed form. */
  lemma SymbolExpectedDamageClosed(s: Symbol, p: real)
    ensures SymbolExpectedDamage(s, Odds(p)) ==
            (s.damage as real) * (Pow(p, 3) * (1.0 - p) + 1.5 * Pow(p, 4) * (1.0 - p) + 2.0 * Pow(p, 5))
  {
  }

  lemma ShippedExpectedDamage(odds: map<SymbolName, LineOdds>)
    requires HasOdds(SlotSymbols, odds)
    requires forall i :: 0 <= i < |SlotSymbols| ==> odds[SlotSymbols[i].name] == Odds(SlotSymbols[i].rarity)
    ensures ExpectedDamage(SlotSymbols, odds) == 10.143059375
  {
    var t := SlotSymbols;
    PrefixSteps(t);
    forall i | 0 <= i < |t| { SymbolExpectedDamageClosed(t[i], t[i].rarity); }
    assert ExpectedDamage(t[..1], odds) == 1477.0 / 2000.0;
    assert ExpectedDamage(t[..2], odds) == 94021.0 / 32000.0;
    assert ExpectedDamage(t[..3], odds) == 305357.0 / 64000.0;
    assert ExpectedDamage(t[..4], odds) == 1675329.0 / 320000.0;
    assert ExpectedDamage(t[..5], odds) == 2822209.0 / 320000.0;
    assert ExpectedDamage(t[..6], odds) == 1587077.0 / 160000.0;
    assert ExpectedDamage(t[..7], odds) == 1620837.0 / 160000.0;
  }

  lemma PrefixSteps(t: seq<Symbol>)
    requires |t| == 8
    ensures t[..1][..0] == t[..0] == [] && t[..2][..1] == t[..1] && t[..3][..2] == t[..2]
    ensures t[..4][..3] == t[..3] && t[..5][..4] == t[..4] && t[..6][..5] == t[..5]
    ensures t[..7][..6] == t[..6] && t[..8][..7] == t[..7] && t[..8] == t
  {
  }

  /**
   * Draws in [0, 1) that move 0.0098 of rarity from Gear to Button and leave
   * the total at 1.
   */
  const ShiftNoise: seq<real> := [0.5, 0.5, 0.5, 0.5, 0.01, 0.5, 0.5, 0.99]

  /** The candidate that noise produces. */
  const ShiftedTable: seq<Symbol> := [
    Symbol(Crystal, 35, 0.10, "magic"),
    Symbol(Sword, 30, 0.15, "attack"),
    Symbol(Shield, 25, 0.15, "defense"),
    Symbol(Armor, 22, 0.10, "defense"),
    Symbol(Gear, 20, 0.1902, "mechanical"),
    Symbol(Pipe, 15, 0.15, "steam"),
    Symbol(Potion, 10, 0.10, "healing"),
    Symbol(Button, 5, 0.0598, "utility")
  ]

  lemma ShiftedCandidate()
    ensures Candidate(SlotSymbols, ShiftNoise) == ShiftedTable
  {
    var t := SlotSymbols;
    var perturbed := seq(|t|, k requires 0 <= k < |t| => Perturb(t[k], ShiftNoise[k]));
    assert perturbed == ShiftedTable;
    assert Cumulative(ShiftedTable, 4) == 0.50;
    assert Cumulative(ShiftedTable, 8) == 1.0;
  }

  lemma ShiftedExpectedDamage(odds: map<SymbolName, LineOdds>)
    requires HasOdds(SlotSymbols, odds)
    requires forall i :: 0 <= i < |SlotSymbols| ==> odds[SlotSymbols[i].name] == Odds(ShiftedTable[i].rarity)
    ensures ExpectedDamage(SlotSymbols, odds) == 9.632091077123928048
  {
    var t := SlotSymbols;
    PrefixSteps(t);
    forall i | 0 <= i < |t| { SymbolExpectedDamageClosed(t[i], ShiftedTable[i].rarity); }
    assert ExpectedDamage(t[..1], odds) == 1477.0 / 2000.0;
    assert ExpectedDamage(t[..2], odds) == 94021.0 / 32000.0;
    assert ExpectedDamage(t[..3], odds) == 305357.0 / 64000.0;
    assert ExpectedDamage(t[..4], odds) == 1675329.0 / 320000.0;
    assert ExpectedDamage(t[..5], odds) == 129675009273659751.0 / 15625000000000000.0;
    assert ExpectedDamage(t[..6], odds) == 146859823726784751.0 / 15625000000000000.0;
    assert ExpectedDamage(t[..7], odds) == 150156698726784751.0 / 15625000000000000.0;
  }

  /**
   * A candidate the as-written optimiser misjudges: moving 0.0098 of rarity
   * from Gear to Button brings the RTP from 1014.3059375 down to
   * 963.2091077123928048, closer to the default target 95, yet every trial of
   * the as-written search reports the shipped RTP, so the candidate is never
   * taken; the corrected trial reports its real RTP.
   */
  lemma AsWrittenMisjudgesCandidate()
    ensures Candidate(SlotSymbols, ShiftNoise) == ShiftedTable
    ensures RTPFor(RarityMap(ShiftedTable)) == 963.2091077123928048
    ensures Abs(RTPFor(RarityMap(ShiftedTable)) - 95.0) < Abs(BaseRTP() - 95.0)
    ensures Abs(BaseRTP() - 95.0) > 1.0
  {
    ShiftedCandidate();
    ShippedRTP();
    ShiftedRTP();
  }

  lemma ShiftedRTP()
    ensures RTPFor(RarityMap(ShiftedTable)) == 963.2091077123928048
  {
    OddsFromTable(ShiftedTable);
    ShiftedExpectedDamage(OddsTable(SlotSymbols, RarityMap(ShiftedTable)));
  }
}
