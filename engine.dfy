/**
 * The 5x5 grid and payline engine (`Enhanced5x5SlotMachine`).
 *
 * The engine owns a 25-cell grid (row-major), scans twenty fixed 5-cell
 * paylines for runs of at least three equal names, scores each run as base
 * damage x {1, 1.5, 2}, keeps a combo multiplier and a jackpot meter, and
 * returns a snapshot from `spin`.
 *
 * The combo multiplier only takes half steps, so it is kept as an integer
 * count of halves: `multiplierHalves == 2` is the multiplier 1.0.
 * Random draws are parameters (one uniform value per cell).
 */
module SlotEngine {
  import opened Wrappers
  import opened Numbers
  import opened Symbols
  import opened Runs

  const Rows: nat := 5
  const Cols: nat := 5
  const TotalPositions: nat := 25

  /** The jackpot symbol: a qualifying Crystal run fills the meter at once. */
  const JackpotSymbol: SymbolName := Crystal
  const JackpotFull: int := 100

  // The payline table, category by category, exactly as shipped. The pattern
  // list repeats both diagonals and the middle row.
  const Horizontal: seq<seq<nat>> := [
    [0, 1, 2, 3, 4], [5, 6, 7, 8, 9], [10, 11, 12, 13, 14],
    [15, 16, 17, 18, 19], [20, 21, 22, 23, 24]
  ]
  const Vertical: seq<seq<nat>> := [
    [0, 5, 10, 15, 20], [1, 6, 11, 16, 21], [2, 7, 12, 17, 22],
    [3, 8, 13, 18, 23], [4, 9, 14, 19, 24]
  ]
  const Diagonal: seq<seq<nat>> := [
    [0, 6, 12, 18, 24], [4, 8, 12, 16, 20]
  ]
  const Patterns: seq<seq<nat>> := [
    [0, 6, 12, 18, 24], [4, 8, 12, 16, 20], [2, 6, 12, 18, 22],
    [10, 11, 12, 13, 14], [0, 1, 4, 20, 24], [0, 4, 12, 20, 24],
    [0, 6, 12, 8, 4], [20, 16, 12, 18, 24]
  ]

  datatype LineKind = HorizontalLine | VerticalLine | DiagonalLine | PatternLine

  /** A payline with its category and its index in that category (an `activePaylines` entry). */
  datatype Payline = Payline(kind: LineKind, index: nat, cells: seq<nat>)

  /** The `type` tag recorded for an active payline; the copy in `final/` tags patterns "patterns". */
  function TypeTag(kind: LineKind, finalCopy: bool): string {
    match kind
    case HorizontalLine => "horizontal"
    case VerticalLine => "vertical"
    case DiagonalLine => "diagonal"
    case PatternLine => if finalCopy then "patterns" else "pattern"
  }

  function Tagged(kind: LineKind, lines: seq<seq<nat>>): (r: seq<Payline>)
    ensures |r| == |lines|
    ensures forall i :: 0 <= i < |lines| ==> r[i] == Payline(kind, i, lines[i])
  {
    seq(|lines|, i requires 0 <= i < |lines| => Payline(kind, i, lines[i]))
  }

  /** All twenty paylines in scan order: horizontal, vertical, diagonal, pattern. */
  const AllPaylines: seq<Payline> :=
    Tagged(HorizontalLine, Horizontal) + Tagged(VerticalLine, Vertical) +
    Tagged(DiagonalLine, Diagonal) + Tagged(PatternLine, Patterns)

  /** A winning run: its first symbol, the payline cells it covers, its length and damage. */
  datatype Win = Win(symbol: Symbol, positions: seq<nat>, length: nat, damage: nat)

  /** The `lengthMultiplier` table, with 1.0 for any length it does not list. */
  function LengthMultiplier(length: int): real {
    if length == 3 then 1.0 else if length == 4 then 1.5 else if length == 5 then 2.0 else 1.0
  }

  /** `calculateMatchDamage`: the floor of base damage times the length multiplier. */
  function MatchDamage(s: Symbol, length: int): (d: nat)
    ensures s.damage <= d <= 2 * s.damage
  {
    if length == 4 then (3 * s.damage) / 2
    else if length == 5 then 2 * s.damage
    else s.damage
  }

  /** The integer computation is the floor of base damage times the length multiplier. */
  lemma MatchDamageIsFloor(s: Symbol, length: int)
    ensures MatchDamage(s, length) == ((s.damage as real) * LengthMultiplier(length)).Floor
  {
  }

  /** Every cell of `line` is on the grid and holds a symbol. */
  predicate Covers(g: seq<Option<Symbol>>, line: seq<nat>) {
    forall k :: 0 <= k < |line| ==> line[k] < |g| && g[line[k]].Some?
  }

  predicate CoversAll(g: seq<Option<Symbol>>, ls: seq<Payline>) {
    forall i :: 0 <= i < |ls| ==> Covers(g, ls[i].cells)
  }

  /** A full grid: 25 cells, each holding a symbol. */
  predicate Full(g: seq<Option<Symbol>>) {
    |g| == TotalPositions && forall i :: 0 <= i < |g| ==> g[i].Some?
  }

  /** The symbols along a payline (`payline.map(index => grid[index])`). */
  function LineSymbols(g: seq<Option<Symbol>>, line: seq<nat>): (syms: seq<Symbol>)
    requires Covers(g, line)
    ensures |syms| == |line|
  {
    seq(|line|, k requires 0 <= k < |line| => g[line[k]].value)
  }

  lemma LineSymbolsAt(g: seq<Option<Symbol>>, line: seq<nat>, k: nat)
    requires Covers(g, line) && k < |line|
    ensures Some(LineSymbols(g, line)[k]) == g[line[k]]
  {
  }

  predicate RunsFit(n: nat, rs: seq<Run>) {
    forall j :: 0 <= j < |rs| ==> 0 < rs[j].length && rs[j].start + rs[j].length <= n
  }

  /** The win recorded for a run of `syms` along `line`. */
  function WinOf(syms: seq<Symbol>, line: seq<nat>, r: Run): Win
    requires |syms| == |line| && 0 < r.length && r.start + r.length <= |line|
  {
    Win(syms[r.start], line[r.start..r.start + r.length], r.length, MatchDamage(syms[r.start], r.length))
  }

  function RunWins(syms: seq<Symbol>, line: seq<nat>, rs: seq<Run>): (ws: seq<Win>)
    requires |syms| == |line| && RunsFit(|line|, rs)
    ensures |ws| == |rs|
  {
    if rs == [] then [] else [WinOf(syms, line, rs[0])] + RunWins(syms, line, rs[1..])
  }

  lemma {:induction false} RunWinsAt(syms: seq<Symbol>, line: seq<nat>, rs: seq<Run>, j: nat)
    requires |syms| == |line| && RunsFit(|line|, rs) && j < |rs|
    ensures RunWins(syms, line, rs)[j] == WinOf(syms, line, rs[j])
    decreases j
  {
    if j > 0 {
      RunWinsAt(syms, line, rs[1..], j - 1);
    }
  }

  lemma {:induction false} RunWinsAppend(syms: seq<Symbol>, line: seq<nat>, a: seq<Run>, b: seq<Run>)
    requires |syms| == |line| && RunsFit(|line|, a) && RunsFit(|line|, b)
    ensures RunsFit(|line|, a + b)
    ensures RunWins(syms, line, a + b) == RunWins(syms, line, a) + RunWins(syms, line, b)
    decreases |a|
  {
    if a == [] {
      assert a + b == b;
    } else {
      var rest := a[1..];
      RunWinsAppend(syms, line, rest, b);
      assert (a + b)[0] == a[0] && (a + b)[1..] == rest + b;
      var w := WinOf(syms, line, a[0]);
      calc {
        RunWins(syms, line, a + b);
        [w] + RunWins(syms, line, rest + b);
        [w] + (RunWins(syms, line, rest) + RunWins(syms, line, b));
        ([w] + RunWins(syms, line, rest)) + RunWins(syms, line, b);
        RunWins(syms, line, a) + RunWins(syms, line, b);
      }
    }
  }

  /** Closing the block `start..i` of the scan adds its win, if it is long enough. */
  lemma CloseRunWins(syms: seq<Symbol>, line: seq<nat>, start: nat, i: nat)
    requires |syms| == |line| && start < i <= |syms|
    requires forall m :: start <= m < i ==> syms[m].name == syms[start].name
    requires i < |syms| ==> syms[i].name != syms[start].name
    ensures RunWins(syms, line, QualifyingFrom(syms, start)) ==
      (if i - start >= MinMatchLength then [WinOf(syms, line, Run(start, i - start))] else []) +
      RunWins(syms, line, QualifyingFrom(syms, i))
  {
    CloseRun(syms, start, i);
    RunWinsAppend(syms, line,
      if i - start >= MinMatchLength then [Run(start, i - start)] else [], QualifyingFrom(syms, i));
  }

  /**
   * The state of the payline scan after `i` symbols: the open match starts at
   * the run boundary `start`, and `wins` followed by the wins still to come
   * from `start` on are all the wins of the line.
   */
  ghost predicate ScanState(syms: seq<Symbol>, line: seq<nat>, total: seq<Win>, wins: seq<Win>,
                            start: nat, i: nat, curSymbol: Symbol, curPositions: seq<nat>, curLength: nat)
  {
    |syms| == |line| && start < i <= |syms| &&
    curSymbol == syms[start] && curLength == i - start && curPositions == line[start..i] &&
    (forall m :: start <= m < i ==> syms[m].name == syms[start].name) &&
    total == wins + RunWins(syms, line, QualifyingFrom(syms, start))
  }

  /** The win the scan records when it closes its open match, if the match is long enough. */
  function Flush(wins: seq<Win>, curSymbol: Symbol, curPositions: seq<nat>, curLength: nat): seq<Win> {
    if curLength >= MinMatchLength
    then wins + [Win(curSymbol, curPositions, curLength, MatchDamage(curSymbol, curLength))]
    else wins
  }

  /** A slice grows by the next element. */
  lemma SliceSnoc(line: seq<nat>, a: nat, b: nat)
    requires a <= b < |line|
    ensures line[a..b + 1] == line[a..b] + [line[b]]
  {
  }

  /** A matching cell extends the open match. */
  lemma ScanGrow(syms: seq<Symbol>, line: seq<nat>, total: seq<Win>, wins: seq<Win>,
                 start: nat, i: nat, curSymbol: Symbol, curPositions: seq<nat>, curLength: nat)
    requires ScanState(syms, line, total, wins, start, i, curSymbol, curPositions, curLength)
    requires i < |syms| && syms[i].name == curSymbol.name
    ensures ScanState(syms, line, total, wins, start, i + 1, curSymbol, curPositions + [line[i]], curLength + 1)
  {
    SliceSnoc(line, start, i);
  }

  /** A different cell closes the open match and opens a new one there. */
  lemma ScanRestart(syms: seq<Symbol>, line: seq<nat>, total: seq<Win>, wins: seq<Win>,
                    start: nat, i: nat, curSymbol: Symbol, curPositions: seq<nat>, curLength: nat)
    requires ScanState(syms, line, total, wins, start, i, curSymbol, curPositions, curLength)
    requires i < |syms| && syms[i].name != curSymbol.name
    ensures ScanState(syms, line, total, Flush(wins, curSymbol, curPositions, curLength), i, i + 1, syms[i], [line[i]], 1)
  {
    ScanClose(syms, line, total, wins, start, i, curSymbol, curPositions, curLength);
    assert line[i..i + 1] == [line[i]];
  }

  /** Closing the open match at a mismatch or at the end of the line. */
  lemma ScanClose(syms: seq<Symbol>, line: seq<nat>, total: seq<Win>, wins: seq<Win>,
                  start: nat, i: nat, curSymbol: Symbol, curPositions: seq<nat>, curLength: nat)
    requires ScanState(syms, line, total, wins, start, i, curSymbol, curPositions, curLength)
    requires i < |syms| ==> syms[i].name != syms[start].name
    ensures total == Flush(wins, curSymbol, curPositions, curLength) + RunWins(syms, line, QualifyingFrom(syms, i))
  {
    CloseRunWins(syms, line, start, i);
    FlushCloses(syms, line, wins, start, i, curSymbol, curPositions, curLength);
    Reassociate(total, wins, if i - start >= MinMatchLength then [WinOf(syms, line, Run(start, i - start))] else [],
                RunWins(syms, line, QualifyingFrom(syms, i)));
  }

  /** Flushing the open match appends the win of the block `start..i`, if any. */
  lemma FlushCloses(syms: seq<Symbol>, line: seq<nat>, wins: seq<Win>,
                    start: nat, i: nat, curSymbol: Symbol, curPositions: seq<nat>, curLength: nat)
    requires |syms| == |line| && start < i <= |syms|
    requires curSymbol == syms[start] && curLength == i - start && curPositions == line[start..i]
    ensures Flush(wins, curSymbol, curPositions, curLength) ==
      wins + if i - start >= MinMatchLength then [WinOf(syms, line, Run(start, i - start))] else []
  {
    assert WinOf(syms, line, Run(start, i - start)) ==
      Win(curSymbol, curPositions, curLength, MatchDamage(curSymbol, curLength));
    if curLength < MinMatchLength {
      assert wins + [] == wins;
    }
  }

  lemma Reassociate(total: seq<Win>, wins: seq<Win>, c: seq<Win>, r: seq<Win>)
    requires total == wins + (c + r)
    ensures total == (wins + c) + r
  {
  }

  /** The wins of one payline on grid `g` (the result of `checkPaylineWin`). */
  function LineWins(g: seq<Option<Symbol>>, line: seq<nat>): seq<Win>
    requires Covers(g, line)
  {
    var syms := LineSymbols(g, line);
    RunWins(syms, line, Qualifying(syms))
  }

  /** The loop of `checkPaylineWin` over the symbols along a payline. */
  method ScanPayline(symbols: seq<Symbol>, payline: seq<nat>) returns (wins: seq<Win>)
    requires |symbols| == |payline|
    ensures wins == RunWins(symbols, payline, Qualifying(symbols))
  {
    wins := [];
    if |symbols| == 0 {
      // The single open match of an empty line has length 1 and never pays.
      return;
    }
    var curSymbol := symbols[0];
    var curPositions := [payline[0]];
    var curLength := 1;
    ghost var total := RunWins(symbols, payline, Qualifying(symbols));
    ghost var start := 0;
    var i := 1;
    while i < |symbols|
      invariant ScanState(symbols, payline, total, wins, start, i, curSymbol, curPositions, curLength)
    {
      if symbols[i].name == curSymbol.name {
        ScanGrow(symbols, payline, total, wins, start, i, curSymbol, curPositions, curLength);
        curPositions := curPositions + [payline[i]];
        curLength := curLength + 1;
      } else {
        ScanRestart(symbols, payline, total, wins, start, i, curSymbol, curPositions, curLength);
        ghost var flushed := Flush(wins, curSymbol, curPositions, curLength);
        if curLength >= MinMatchLength {
          wins := wins + [Win(curSymbol, curPositions, curLength, MatchDamage(curSymbol, curLength))];
        }
        assert wins == flushed;
        curSymbol := symbols[i];
        curPositions := [payline[i]];
        curLength := 1;
        start := i;
      }
      i := i + 1;
    }
    ScanClose(symbols, payline, total, wins, start, i, curSymbol, curPositions, curLength);
    if curLength >= MinMatchLength {
      wins := wins + [Win(curSymbol, curPositions, curLength, MatchDamage(curSymbol, curLength))];
    }
    assert QualifyingFrom(symbols, |symbols|) == [];
    assert wins + [] == wins;
  }

  /** The wins of the paylines `ls`, in order (`winningCombinations`). */
  function ScanWins(g: seq<Option<Symbol>>, ls: seq<Payline>): seq<Win>
    requires CoversAll(g, ls)
  {
    Flatten(PerLine(g, ls))
  }

  /** The wins of each payline of `ls`, line by line. */
  function PerLine(g: seq<Option<Symbol>>, ls: seq<Payline>): (r: seq<seq<Win>>)
    requires CoversAll(g, ls)
    ensures |r| == |ls|
  {
    seq(|ls|, i requires 0 <= i < |ls| => LineWins(g, ls[i].cells))
  }

  /** The concatenation of `ss`, in order. */
  function Flatten<T>(ss: seq<seq<T>>): seq<T> {
    if ss == [] then [] else Flatten(ss[..|ss| - 1]) + ss[|ss| - 1]
  }

  /** The paylines of `ls` that produced a win, in order (`activePaylines`). */
  function ScanActive(g: seq<Option<Symbol>>, ls: seq<Payline>): seq<Payline>
    requires CoversAll(g, ls)
  {
    ActiveLines(ls, PerLine(g, ls))
  }

  /** The lines of `ls` whose result in `rs` is not empty, in order. */
  function ActiveLines(ls: seq<Payline>, rs: seq<seq<Win>>): seq<Payline>
    requires |ls| == |rs|
  {
    if ls == [] then []
    else ActiveLines(ls[..|ls| - 1], rs[..|rs| - 1]) + (if rs[|rs| - 1] != [] then [ls[|ls| - 1]] else [])
  }

  /** Positions of all wins, in order, with repeats. */
  function AllPositions(ws: seq<Win>): seq<nat> {
    if ws == [] then [] else AllPositions(ws[..|ws| - 1]) + ws[|ws| - 1].positions
  }

  /** `s` without repeats, each element kept at its first occurrence (a JavaScript `Set`). */
  function Dedup(s: seq<nat>): (r: seq<nat>)
    ensures forall x :: x in r <==> x in s
    ensures forall i, j :: 0 <= i < j < |r| ==> r[i] != r[j]
  {
    if s == [] then []
    else
      var d := Dedup(s[..|s| - 1]);
      assert forall x :: x in s <==> x in s[..|s| - 1] || x == s[|s| - 1];
      if s[|s| - 1] in d then d else d + [s[|s| - 1]]
  }

  /** One more position of the scan that `Dedup` describes. */
  lemma DedupStep(before: seq<nat>, ps: seq<nat>, j: nat)
    requires j < |ps|
    ensures Dedup(before + ps[..j + 1]) ==
            if ps[j] in Dedup(before + ps[..j]) then Dedup(before + ps[..j]) else Dedup(before + ps[..j]) + [ps[j]]
  {
    assert (before + ps[..j + 1])[..|before + ps[..j + 1]| - 1] == before + ps[..j];
  }

  /** One more win's positions. */
  lemma AllPositionsStep(ws: seq<Win>, i: nat)
    requires i < |ws|
    ensures AllPositions(ws[..i + 1]) == AllPositions(ws[..i]) + ws[i].positions
  {
    assert ws[..i + 1][..i] == ws[..i];
  }

  /** One more payline of the scan: its wins are appended, and it is active when it has any. */
  lemma ScanStep(ls: seq<Payline>, rs: seq<seq<Win>>, i: nat)
    requires |ls| == |rs| && i < |ls|
    ensures Flatten(rs[..i + 1]) == Flatten(rs[..i]) + rs[i]
    ensures ActiveLines(ls[..i + 1], rs[..i + 1]) ==
            ActiveLines(ls[..i], rs[..i]) + (if rs[i] != [] then [ls[i]] else [])
  {
    assert rs[..i + 1][..i] == rs[..i] && ls[..i + 1][..i] == ls[..i];
  }

  /** Sum of win damages (the `reduce` in `calculateTotalDamage`). */
  function SumDamage(ws: seq<Win>): nat {
    if ws == [] then 0 else SumDamage(ws[..|ws| - 1]) + ws[|ws| - 1].damage
  }

  /** `calculateTotalDamage`: the floor of the damage sum times the multiplier. */
  function TotalDamageOf(ws: seq<Win>, multiplierHalves: int): int
  {
    (SumDamage(ws) * multiplierHalves) / 2
  }

  /** `calculateTotalDamage` floors the damage sum times the multiplier. */
  lemma TotalDamageIsFloor(ws: seq<Win>, multiplierHalves: int)
    ensures TotalDamageOf(ws, multiplierHalves) ==
      ((SumDamage(ws) as real) * (multiplierHalves as real / 2.0)).Floor
  {
    var n := SumDamage(ws) * multiplierHalves;
    var q, r := n / 2, n % 2;
    assert n == 2 * q + r && 0 <= r < 2;
    assert (SumDamage(ws) as real) * (multiplierHalves as real / 2.0) == q as real + (r as real) / 2.0;
  }

  /** The multiplier `min(5, 1 + floor(comboCount / 3) * 0.5)`, in halves. */
  function ComboHalves(comboCount: int): int
  {
    if 2 + comboCount / 3 < 10 then 2 + comboCount / 3 else 10
  }

  /** The halves count is the multiplier `min(5, 1 + floor(comboCount / 3) * 0.5)`. */
  lemma ComboHalvesIsMultiplier(comboCount: int)
    ensures ComboHalves(comboCount) as real / 2.0 ==
      MinR(5.0, 1.0 + (((comboCount as real) / 3.0).Floor as real) * 0.5)
  {
    var q, r := comboCount / 3, comboCount % 3;
    assert comboCount == 3 * q + r && 0 <= r < 3;
    var x := (comboCount as real) / 3.0;
    assert x == q as real + (r as real) / 3.0;
    assert q as real <= x < q as real + 1.0;
    assert x.Floor == q;
    if 2 + q < 10 {
      assert ComboHalves(comboCount) == 2 + q;
    } else {
      assert ComboHalves(comboCount) == 10;
    }
  }

  /** `updateComboSystem` on (comboCount, multiplierHalves). */
  function ComboStep(comboCount: int, multiplierHalves: int, hasWin: bool): (int, int) {
    if hasWin then (comboCount + 1, ComboHalves(comboCount + 1)) else (0, 2)
  }

  /** The combo state after a sequence of spin outcomes. */
  function ComboAfter(comboCount: int, multiplierHalves: int, outcomes: seq<bool>): (int, int)
  {
    if outcomes == [] then (comboCount, multiplierHalves)
    else
      var prev := ComboAfter(comboCount, multiplierHalves, outcomes[..|outcomes| - 1]);
      ComboStep(prev.0, prev.1, outcomes[|outcomes| - 1])
  }

  /** Number of qualifying Crystal wins (the `filter(...).length` in `updateJackpotProgress`). */
  function CrystalWins(ws: seq<Win>): (n: nat)
    ensures n > 0 <==> exists j :: 0 <= j < |ws| && ws[j].symbol.name == JackpotSymbol && ws[j].length >= 3
  {
    if ws == [] then 0
    else
      var w := ws[|ws| - 1];
      var rest := CrystalWins(ws[..|ws| - 1]);
      assert forall j :: 0 <= j < |ws| - 1 ==> ws[..|ws| - 1][j] == ws[j];
      rest + (if w.symbol.name == JackpotSymbol && w.length >= 3 then 1 else 0)
  }

  /** Meter gain of a grid: the sum of the per-cell increments. */
  function GridGain(g: seq<Option<Symbol>>): int
    requires forall i :: 0 <= i < |g| ==> g[i].Some?
  {
    if g == [] then 0 else GridGain(g[..|g| - 1]) + JackpotIncrement(g[|g| - 1].value)
  }

  /** `updateJackpotProgress`: add every cell's gain, force 100 on a Crystal win, cap at 100. */
  function JackpotAfter(progress: int, g: seq<Option<Symbol>>, ws: seq<Win>): int
    requires forall i :: 0 <= i < |g| ==> g[i].Some?
  {
    var p := progress + GridGain(g);
    var p' := if CrystalWins(ws) > 0 then JackpotFull else p;
    if p' < JackpotFull then p' else JackpotFull
  }

  /** The grid `generateGrid` draws from one uniform value per cell. */
  function DrawnGrid(us: seq<real>): (g: seq<Option<Symbol>>)
    ensures |g| == |us|
    ensures forall i :: 0 <= i < |g| ==> g[i].Some? && g[i].value in SlotSymbols
  {
    if us == [] then [] else DrawnGrid(us[..|us| - 1]) + [Some(Draw(SlotSymbols, us[|us| - 1]))]
  }

  /** Cell `i` of a drawn grid is the draw of the `i`-th uniform value. */
  lemma {:induction false} DrawnGridAt(us: seq<real>, i: nat)
    requires i < |us|
    ensures DrawnGrid(us)[i] == Some(Draw(SlotSymbols, us[i]))
    decreases |us|
  {
    if i < |us| - 1 {
      DrawnGridAt(us[..|us| - 1], i);
    }
  }

  /** JavaScript `%` (sign of the dividend), for a positive divisor. */
  function JsRemainder(a: int, b: int): int
    requires b > 0
  {
    if a >= 0 then a % b else -((-a) % b)
  }

  /** `indexToCoords`: (Math.floor(index / 5), index % 5). */
  function IndexToCoords(index: int): (int, int) {
    (index / Cols, JsRemainder(index, Cols))
  }

  /** `coordsToIndex`: row * 5 + col. */
  function CoordsToIndex(row: int, col: int): int {
    row * Cols + col
  }

  /** The snapshot `spin` returns. */
  datatype SpinResult = SpinResult(
    grid: seq<Option<Symbol>>,
    wins: seq<Win>,
    activePaylines: seq<Payline>,
    totalDamage: int,
    multiplierHalves: int,
    comboCount: int,
    jackpotProgress: int,
    isJackpot: bool,
    winningPositions: seq<nat>)

  /** The engine fields, as `getGameState` reports them. */
  datatype EngineState = EngineState(
    grid: seq<Option<Symbol>>,
    winningCombinations: seq<Win>,
    activePaylines: seq<Payline>,
    totalDamage: int,
    multiplierHalves: int,
    comboCount: int,
    jackpotProgress: int)

  /** A saved state as `loadGameState` receives it: any field may be missing. */
  datatype SavedState = SavedState(
    grid: Option<seq<Option<Symbol>>>,
    winningCombinations: Option<seq<Win>>,
    activePaylines: Option<seq<Payline>>,
    totalDamage: Option<int>,
    multiplierHalves: Option<int>,
    comboCount: Option<int>,
    jackpotProgress: Option<int>)

  function EmptyGrid(): seq<Option<Symbol>> {
    seq(TotalPositions, _ => None)
  }

  /** The state of a freshly constructed engine. */
  function InitialState(): EngineState {
    EngineState(EmptyGrid(), [], [], 0, 2, 0, 0)
  }

  /** `getGameState`. */
  function Save(e: EngineState): SavedState {
    SavedState(Some(e.grid), Some(e.winningCombinations), Some(e.activePaylines),
      Some(e.totalDamage), Some(e.multiplierHalves), Some(e.comboCount), Some(e.jackpotProgress))
  }

  /** A number field read with `state.x || default`: missing or 0 gives the default. */
  function NumberOr(x: Option<int>, default: int): int {
    if x.Some? && x.value != 0 then x.value else default
  }

  /** `loadGameState`: take each field present, else its default. */
  function Restore(s: SavedState): EngineState {
    EngineState(
      s.grid.GetOr(EmptyGrid()),
      s.winningCombinations.GetOr([]),
      s.activePaylines.GetOr([]),
      NumberOr(s.totalDamage, 0),
      NumberOr(s.multiplierHalves, 2),
      NumberOr(s.comboCount, 0),
      NumberOr(s.jackpotProgress, 0))
  }

  /**
   * The engine fields after `spin` redraws the grid from `us`: the wins and
   * active lines of the new grid, the combo stepped by this spin's outcome,
   * the damage at the new multiplier and the meter after the new grid.
   */
  function SpinState(e: EngineState, us: seq<real>): EngineState
    requires |us| == TotalPositions
  {
    var g := DrawnGrid(us);
    PaylinesOnGrid(g);
    var ws := ScanWins(g, AllPaylines);
    var combo := ComboStep(e.comboCount, e.multiplierHalves, ws != []);
    EngineState(g, ws, ScanActive(g, AllPaylines), TotalDamageOf(ws, combo.1), combo.1, combo.0,
                JackpotAfter(e.jackpotProgress, g, ws))
  }

  /** The snapshot `spin` returns, read off the engine fields it leaves. */
  function Snapshot(e: EngineState): SpinResult {
    SpinResult(e.grid, e.winningCombinations, e.activePaylines, e.totalDamage, e.multiplierHalves,
               e.comboCount, e.jackpotProgress, e.jackpotProgress >= JackpotFull,
               Dedup(AllPositions(e.winningCombinations)))
  }

  class SlotMachine {
    var grid: seq<Option<Symbol>>
    var activePaylines: seq<Payline>
    var winningCombinations: seq<Win>
    var totalDamage: int
    var multiplierHalves: int
    var comboCount: int
    var jackpotProgress: int
    /** Properties a negative index writes on the grid array, keyed by that index. */
    var negativeCells: map<int, Symbol>

    /** What the engine keeps true across spins (a loaded state need not satisfy it). */
    ghost predicate Valid()
      reads this
    {
      2 <= multiplierHalves && 0 <= comboCount && 0 <= jackpotProgress <= JackpotFull && 0 <= totalDamage
    }

    function State(): EngineState
      reads this
    {
      EngineState(grid, winningCombinations, activePaylines, totalDamage, multiplierHalves, comboCount, jackpotProgress)
    }

    constructor()
      ensures State() == InitialState()
      ensures Valid()
    {
      grid := EmptyGrid();
      activePaylines := [];
      winningCombinations := [];
      totalDamage := 0;
      multiplierHalves := 2;
      comboCount := 0;
      jackpotProgress := 0;
      negativeCells := map[];
    }

    /** `generateGrid`: redraw all 25 cells into a new array. */
    method GenerateGrid(us: seq<real>) returns (g: seq<Option<Symbol>>)
      requires |us| == TotalPositions
      modifies this`grid, this`negativeCells
      ensures grid == g == DrawnGrid(us) && negativeCells == map[]
      ensures Full(grid)
      ensures forall i :: 0 <= i < |grid| ==> grid[i].value in SlotSymbols
    {
      grid := [];
      negativeCells := map[];
      var i := 0;
      while i < TotalPositions
        invariant 0 <= i <= TotalPositions && |grid| == i
        invariant grid == DrawnGrid(us[..i]) && negativeCells == map[]
        invariant forall k :: 0 <= k < i ==> grid[k].Some? && grid[k].value in SlotSymbols
      {
        var s := GetRandomSymbol(SlotSymbols, us[i]);
        assert us[..i + 1][..i] == us[..i];
        grid := grid + [Some(s)];
        i := i + 1;
      }
      assert us[..i] == us;
      g := grid;
    }

    /**
     * `getSymbolAt`: the cell at flattened index row×5+col. The column is not
     * checked on its own, so (0, 7) reads the cell at (1, 2). A negative index
     * reads the property `setSymbolAt` may have written there; any other index
     * outside the grid array gives `None`.
     */
    function GetSymbolAt(row: int, col: int): (r: Option<Symbol>)
      reads this
      ensures 0 <= row * Cols + col < |grid| ==> r == grid[row * Cols + col]
      ensures row * Cols + col >= |grid| ==> r == None
      ensures row * Cols + col < 0 ==>
        (r.Some? <==> row * Cols + col in negativeCells) &&
        (r.Some? ==> r.value == negativeCells[row * Cols + col])
      ensures 0 <= row < Rows && 0 <= col < Cols && |grid| == TotalPositions ==>
        r == grid[CoordsToIndex(row, col)]
    {
      var index := row * Cols + col;
      if 0 <= index < |grid| then grid[index]
      else if index < 0 && index in negativeCells then Some(negativeCells[index])
      else None
    }

    /**
     * `setSymbolAt`: a JavaScript array grows (with holes) when written past
     * its end; a negative index writes a property, not an element.
     */
    method SetSymbolAt(row: int, col: int, s: Symbol)
      modifies this`grid, this`negativeCells
      ensures var index := CoordsToIndex(row, col);
        if 0 <= index < |old(grid)| then grid == old(grid)[index := Some(s)] && negativeCells == old(negativeCells)
        else if index < 0 then grid == old(grid) && negativeCells == old(negativeCells)[index := s]
        else |grid| == index + 1 && grid[..|old(grid)|] == old(grid) && grid[index] == Some(s) &&
             (forall k :: |old(grid)| <= k < index ==> grid[k] == None) && negativeCells == old(negativeCells)
      ensures GetSymbolAt(row, col) == Some(s)
      ensures forall r, c :: r * Cols + c != row * Cols + col ==> GetSymbolAt(r, c) == old(GetSymbolAt(r, c))
    {
      var index := row * Cols + col;
      if 0 <= index < |grid| {
        grid := grid[index := Some(s)];
      } else if index >= |grid| {
        grid := grid + seq(index - |grid|, _ => None) + [Some(s)];
      } else {
        negativeCells := negativeCells[index := s];
      }
    }

    /** `checkPaylineWin`: the run scan along one payline. */
    method CheckPaylineWin(payline: seq<nat>) returns (wins: seq<Win>)
      requires Covers(grid, payline)
      ensures wins == LineWins(grid, payline)
    {
      var symbols := LineSymbols(grid, payline);
      wins := ScanPayline(symbols, payline);
    }

    /** `analyzeAllPaylines`: rebuild the wins and the active paylines from scratch. */
    method AnalyzeAllPaylines() returns (wins: seq<Win>)
      requires CoversAll(grid, AllPaylines)
      modifies this`winningCombinations, this`activePaylines
      ensures wins == winningCombinations == ScanWins(grid, AllPaylines)
      ensures activePaylines == ScanActive(grid, AllPaylines)
    {
      wins := AnalyzePaylines(AllPaylines);
    }

    /** The loop of `analyzeAllPaylines` over a list of paylines, in order. */
    method AnalyzePaylines(lines: seq<Payline>) returns (wins: seq<Win>)
      requires CoversAll(grid, lines)
      modifies this`winningCombinations, this`activePaylines
      ensures wins == winningCombinations == ScanWins(grid, lines)
      ensures activePaylines == ScanActive(grid, lines)
    {
      ghost var results := PerLine(grid, lines);
      var found: seq<Win> := [];
      var active: seq<Payline> := [];
      var i := 0;
      while i < |lines|
        invariant 0 <= i <= |lines|
        invariant found == Flatten(results[..i])
        invariant active == ActiveLines(lines[..i], results[..i])
      {
        var line := lines[i];
        var lineWins := CheckPaylineWin(line.cells);
        ScanStep(lines, results, i);
        if |lineWins| > 0 {
          active := active + [line];
          found := found + lineWins;
        }
        i := i + 1;
      }
      assert lines[..i] == lines && results[..i] == results;
      winningCombinations := found;
      activePaylines := active;
      wins := found;
    }

    /** `calculateTotalDamage`. */
    method CalculateTotalDamage() returns (d: int)
      modifies this`totalDamage
      ensures d == totalDamage == TotalDamageOf(winningCombinations, multiplierHalves)
    {
      var sum := 0;
      var i := 0;
      while i < |winningCombinations|
        invariant 0 <= i <= |winningCombinations|
        invariant sum == SumDamage(winningCombinations[..i])
      {
        assert winningCombinations[..i + 1][..i] == winningCombinations[..i];
        sum := sum + winningCombinations[i].damage;
        i := i + 1;
      }
      assert winningCombinations[..i] == winningCombinations;
      totalDamage := (sum * multiplierHalves) / 2;
      d := totalDamage;
    }

    /** `updateComboSystem`. */
    method UpdateComboSystem(hasWin: bool)
      modifies this`comboCount, this`multiplierHalves
      ensures (comboCount, multiplierHalves) == ComboStep(old(comboCount), old(multiplierHalves), hasWin)
    {
      if hasWin {
        comboCount := comboCount + 1;
        multiplierHalves := if 2 + comboCount / 3 < 10 then 2 + comboCount / 3 else 10;
      } else {
        comboCount := 0;
        multiplierHalves := 2;
      }
    }

    /** `updateJackpotProgress`. */
    method UpdateJackpotProgress()
      requires forall i :: 0 <= i < |grid| ==> grid[i].Some?
      modifies this`jackpotProgress
      ensures jackpotProgress == JackpotAfter(old(jackpotProgress), grid, winningCombinations)
    {
      var i := 0;
      while i < |grid|
        invariant 0 <= i <= |grid|
        invariant jackpotProgress == old(jackpotProgress) + GridGain(grid[..i])
      {
        assert grid[..i + 1][..i] == grid[..i];
        jackpotProgress := jackpotProgress + JackpotIncrement(grid[i].value);
        i := i + 1;
      }
      assert grid[..i] == grid;
      var crystalCount := CrystalWins(winningCombinations);
      if crystalCount > 0 {
        jackpotProgress := JackpotFull;
      }
      jackpotProgress := if jackpotProgress < JackpotFull then jackpotProgress else JackpotFull;
    }

    /** `isJackpotTriggered`. */
    predicate IsJackpotTriggered()
      reads this
    {
      jackpotProgress >= JackpotFull
    }

    /** `resetJackpot`: the explicit reset after a payout. */
    method ResetJackpot()
      modifies this`jackpotProgress
      ensures jackpotProgress == 0 && !IsJackpotTriggered()
      ensures State() == old(State()).(jackpotProgress := 0)
    {
      jackpotProgress := 0;
    }

    /** `getWinningPositions`: every winning cell once, in first-seen order. */
    method GetWinningPositions() returns (positions: seq<nat>)
      ensures positions == Dedup(AllPositions(winningCombinations))
    {
      var ws := winningCombinations;
      positions := [];
      var i := 0;
      while i < |ws|
        invariant 0 <= i <= |ws|
        invariant positions == Dedup(AllPositions(ws[..i]))
      {
        var win := ws[i];
        ghost var before := AllPositions(ws[..i]);
        assert before + win.positions[..0] == before;
        var j := 0;
        while j < |win.positions|
          invariant 0 <= j <= |win.positions|
          invariant positions == Dedup(before + win.positions[..j])
        {
          var pos := win.positions[j];
          DedupStep(before, win.positions, j);
          if pos !in positions {
            positions := positions + [pos];
          }
          j := j + 1;
        }
        assert win.positions[..j] == win.positions;
        AllPositionsStep(ws, i);
        i := i + 1;
      }
      assert ws[..i] == ws;
    }

    /** `spin`: redraw, analyse, update combo then jackpot, score, snapshot. */
    method Spin(us: seq<real>) returns (r: SpinResult)
      requires |us| == TotalPositions
      modifies this
      ensures grid == DrawnGrid(us) && Full(grid) && CoversAll(grid, AllPaylines)
      ensures winningCombinations == ScanWins(grid, AllPaylines)
      ensures activePaylines == ScanActive(grid, AllPaylines)
      ensures (comboCount, multiplierHalves) ==
              ComboStep(old(comboCount), old(multiplierHalves), winningCombinations != [])
      ensures jackpotProgress == JackpotAfter(old(jackpotProgress), grid, winningCombinations)
      ensures totalDamage == TotalDamageOf(winningCombinations, multiplierHalves)
      ensures r == SpinResult(grid, winningCombinations, activePaylines, totalDamage, multiplierHalves,
                              comboCount, jackpotProgress, jackpotProgress >= JackpotFull,
                              Dedup(AllPositions(winningCombinations)))
      ensures State() == SpinState(old(State()), us) && r == Snapshot(State())
      ensures negativeCells == map[]
      ensures old(Valid()) ==> Valid()
    {
      ghost var progress0 := jackpotProgress;
      ghost var combo0 := comboCount;
      ghost var halves0 := multiplierHalves;
      var wins := Redraw(us);
      var hasWin := |wins| > 0;
      if 0 <= progress0 <= JackpotFull && 0 <= combo0 && 2 <= halves0 {
        SpinStaysValid(us, wins, progress0, combo0, halves0, hasWin);
      }
      var damage := Score(hasWin);
      var positions := GetWinningPositions();
      r := SpinResult(grid, winningCombinations, activePaylines, damage, multiplierHalves,
                      comboCount, jackpotProgress, IsJackpotTriggered(), positions);
    }

    /** The first half of `spin`: redraw the grid and analyse every payline. */
    method Redraw(us: seq<real>) returns (wins: seq<Win>)
      requires |us| == TotalPositions
      modifies this`grid, this`negativeCells, this`winningCombinations, this`activePaylines
      ensures grid == DrawnGrid(us) && Full(grid) && CoversAll(grid, AllPaylines) && negativeCells == map[]
      ensures wins == winningCombinations == ScanWins(grid, AllPaylines)
      ensures activePaylines == ScanActive(grid, AllPaylines)
    {
      var g := GenerateGrid(us);
      PaylinesOnGrid(grid);
      wins := AnalyzeAllPaylines();
    }

    /** The second half of `spin`: combo, then jackpot, then damage at the new multiplier. */
    method Score(hasWin: bool) returns (damage: int)
      requires Full(grid)
      modifies this`comboCount, this`multiplierHalves, this`jackpotProgress, this`totalDamage
      ensures (comboCount, multiplierHalves) == ComboStep(old(comboCount), old(multiplierHalves), hasWin)
      ensures jackpotProgress == JackpotAfter(old(jackpotProgress), grid, winningCombinations)
      ensures damage == totalDamage == TotalDamageOf(winningCombinations, multiplierHalves)
    {
      UpdateComboSystem(hasWin);
      UpdateJackpotProgress();
      damage := CalculateTotalDamage();
    }

    /** `getGameState`. */
    function GetGameState(): (s: SavedState)
      reads this
    {
      Save(State())
    }

    /** `loadGameState`: each missing or falsy field takes its default. */
    method LoadGameState(s: SavedState)
      modifies this
      ensures State() == Restore(s) && negativeCells == map[]
    {
      grid := s.grid.GetOr(EmptyGrid());
      negativeCells := map[];
      winningCombinations := s.winningCombinations.GetOr([]);
      activePaylines := s.activePaylines.GetOr([]);
      totalDamage := NumberOr(s.totalDamage, 0);
      multiplierHalves := NumberOr(s.multiplierHalves, 2);
      comboCount := NumberOr(s.comboCount, 0);
      jackpotProgress := NumberOr(s.jackpotProgress, 0);
    }
  }

  // ---------------------------------------------------------------------
  // Properties
  // ---------------------------------------------------------------------

  /** Five cells, all on the grid. */
  predicate OnGrid(cells: seq<nat>) {
    |cells| == 5 && cells[0] < TotalPositions && cells[1] < TotalPositions &&
    cells[2] < TotalPositions && cells[3] < TotalPositions && cells[4] < TotalPositions
  }

  /** There are twenty paylines, each of five cells on the grid. */
  lemma PaylinesWellFormed()
    ensures |AllPaylines| == 20
    ensures forall p :: p in AllPaylines ==> OnGrid(p.cells)
  {
    assert forall l :: l in Horizontal ==> OnGrid(l);
    assert forall l :: l in Vertical ==> OnGrid(l);
    assert forall l :: l in Diagonal ==> OnGrid(l);
    assert forall l :: l in Patterns ==> OnGrid(l);
    forall p | p in AllPaylines
      ensures OnGrid(p.cells)
    {
      var j :| 0 <= j < |AllPaylines| && AllPaylines[j] == p;
      if j < 5 { assert p.cells == Horizontal[j]; }
      else if j < 10 { assert p.cells == Vertical[j - 5]; }
      else if j < 12 { assert p.cells == Diagonal[j - 10]; }
      else { assert p.cells == Patterns[j - 12]; }
    }
  }

  lemma PaylinesOnGrid(g: seq<Option<Symbol>>)
    requires Full(g)
    ensures CoversAll(g, AllPaylines)
  {
    PaylinesWellFormed();
    forall i | 0 <= i < |AllPaylines|
      ensures Covers(g, AllPaylines[i].cells)
    {
      assert AllPaylines[i] in AllPaylines;
    }
  }

  /** `calculateMatchDamage` gives damage, floor(1.5 damage), 2 damage, and damage for any other length. */
  lemma MatchDamageByLength(s: Symbol, length: int)
    ensures length == 3 ==> MatchDamage(s, length) == s.damage
    ensures length == 4 ==> MatchDamage(s, length) == ((s.damage as real) * 1.5).Floor
    ensures length == 5 ==> MatchDamage(s, length) == ((s.damage as real) * 2.0).Floor
    ensures length != 3 && length != 4 && length != 5 ==> MatchDamage(s, length) == s.damage
  {
    MatchDamageIsFloor(s, length);
  }

  /** The `n` cells of `line` from index `a`. */
  function SliceAt(line: seq<nat>, a: nat, n: nat): seq<nat>
    requires a + n <= |line|
  {
    line[a..a + n]
  }

  /** The win of one block of equal names. */
  lemma WinOfSound(g: seq<Option<Symbol>>, line: seq<nat>, r: Run)
    requires Covers(g, line) && 0 < r.length && r.start + r.length <= |line|
    requires forall m :: r.start <= m < r.start + r.length ==>
      LineSymbols(g, line)[m].name == LineSymbols(g, line)[r.start].name
    ensures var w := WinOf(LineSymbols(g, line), line, r);
      |w.positions| == w.length == r.length && w.positions == SliceAt(line, r.start, r.length) &&
      forall p :: p in w.positions ==> p < |g| && g[p].Some? && g[p].value.name == w.symbol.name
  {
    var syms := LineSymbols(g, line);
    var w := WinOf(syms, line, r);
    forall p | p in w.positions
      ensures p < |g| && g[p].Some? && g[p].value.name == w.symbol.name
    {
      var k :| 0 <= k < |w.positions| && w.positions[k] == p;
      assert p == line[r.start + k];
      LineSymbolsAt(g, line, r.start + k);
      LineSymbolsAt(g, line, r.start);
    }
  }

  /**
   * Every win on a payline: length between 3 and the payline length, one
   * position per cell of the run, the positions a contiguous slice of the
   * payline, all holding the win's symbol name, and the damage of
   * `calculateMatchDamage`. A five-cell payline yields at most one win.
   */
  lemma LineWinsSound(g: seq<Option<Symbol>>, line: seq<nat>)
    requires Covers(g, line)
    ensures forall w :: w in LineWins(g, line) ==>
      MinMatchLength <= w.length <= |line| && |w.positions| == w.length &&
      w.damage == MatchDamage(w.symbol, w.length) &&
      (exists a: nat :: a + w.length <= |line| && w.positions == SliceAt(line, a, w.length)) &&
      forall p :: p in w.positions ==> p < |g| && g[p].Some? && g[p].value.name == w.symbol.name
    ensures |line| <= 5 ==> |LineWins(g, line)| <= 1
  {
    var ws := LineWins(g, line);
    forall w | w in ws
      ensures MinMatchLength <= w.length <= |line| && |w.positions| == w.length
      ensures w.damage == MatchDamage(w.symbol, w.length)
      ensures exists a: nat :: a + w.length <= |line| && w.positions == SliceAt(line, a, w.length)
      ensures forall p :: p in w.positions ==> p < |g| && g[p].Some? && g[p].value.name == w.symbol.name
    {
      var j :| 0 <= j < |ws| && ws[j] == w;
      LineWinAt(g, line, j);
      var a := Qualifying(LineSymbols(g, line))[j].start;
      assert a + w.length <= |line| && w.positions == SliceAt(line, a, w.length);
    }
    if |line| <= 5 {
      AtMostOneRunInFive(LineSymbols(g, line));
    }
  }

  /** The `j`-th win of a payline is the win of the `j`-th qualifying run. */
  lemma LineWinAt(g: seq<Option<Symbol>>, line: seq<nat>, j: nat)
    requires Covers(g, line) && j < |LineWins(g, line)|
    ensures var w := LineWins(g, line)[j];
      var r := Qualifying(LineSymbols(g, line))[j];
      MinMatchLength <= w.length == r.length && r.start + r.length <= |line| &&
      |w.positions| == w.length && w.damage == MatchDamage(w.symbol, w.length) &&
      w.positions == SliceAt(line, r.start, r.length) &&
      forall p :: p in w.positions ==> p < |g| && g[p].Some? && g[p].value.name == w.symbol.name
  {
    var syms := LineSymbols(g, line);
    var rs := Qualifying(syms);
    QualifyingFromUniform(syms, 0);
    RunWinsAt(syms, line, rs, j);
    WinOfSound(g, line, rs[j]);
  }

  /** A payline of five equal names pays exactly once, at twice the base damage. */
  lemma FiveOfAKind(g: seq<Option<Symbol>>, line: seq<nat>)
    requires Covers(g, line) && |line| == 5
    requires forall k :: 0 <= k < 5 ==> g[line[k]].value.name == g[line[0]].value.name
    ensures LineWins(g, line) == [Win(g[line[0]].value, line, 5, 2 * g[line[0]].value.damage)]
  {
    var syms := LineSymbols(g, line);
    assert forall m :: 0 <= m < 5 ==> syms[m].name == syms[0].name;
    CloseRun(syms, 0, 5);
    assert QualifyingFrom(syms, 5) == [];
    assert Qualifying(syms) == [Run(0, 5)];
    assert line[0..5] == line;
  }

  lemma {:induction false} FlattenAppend<T>(a: seq<seq<T>>, b: seq<seq<T>>)
    ensures Flatten(a + b) == Flatten(a) + Flatten(b)
    decreases |b|
  {
    if b == [] {
      assert a + b == a;
    } else {
      var init, last := b[..|b| - 1], b[|b| - 1];
      FlattenAppend(a, init);
      assert (a + b)[..|a + b| - 1] == a + init && (a + b)[|a + b| - 1] == last;
    }
  }

  lemma ScanWinsAppend(g: seq<Option<Symbol>>, a: seq<Payline>, b: seq<Payline>)
    requires CoversAll(g, a) && CoversAll(g, b)
    ensures CoversAll(g, a + b)
    ensures ScanWins(g, a + b) == ScanWins(g, a) + ScanWins(g, b)
  {
    assert PerLine(g, a + b) == PerLine(g, a) + PerLine(g, b);
    FlattenAppend(PerLine(g, a), PerLine(g, b));
  }

  /**
   * Duplicated paylines pay twice: the main diagonal is scanned as diagonal 0
   * and again as pattern 0, so its wins appear twice in `winningCombinations`.
   */
  lemma MainDiagonalPaysTwice(g: seq<Option<Symbol>>)
    requires Full(g)
    ensures CoversAll(g, AllPaylines)
    ensures ScanWins(g, AllPaylines) ==
      ScanWins(g, AllPaylines[..10]) + LineWins(g, Diagonal[0]) +
      ScanWins(g, AllPaylines[11..12]) + LineWins(g, Diagonal[0]) + ScanWins(g, AllPaylines[13..])
  {
    PaylinesOnGrid(g);
    var P := AllPaylines;
    assert P == P[..10] + [P[10]] + P[11..12] + [P[12]] + P[13..];
    assert P[10].cells == Diagonal[0] && P[12].cells == Diagonal[0];
    ScanWinsAppend(g, P[..10], [P[10]]);
    ScanWinsAppend(g, P[..10] + [P[10]], P[11..12]);
    ScanWinsAppend(g, P[..10] + [P[10]] + P[11..12], [P[12]]);
    ScanWinsAppend(g, P[..10] + [P[10]] + P[11..12] + [P[12]], P[13..]);
    assert PerLine(g, [P[10]]) == [LineWins(g, P[10].cells)];
    assert PerLine(g, [P[12]]) == [LineWins(g, P[12].cells)];
    assert Flatten([LineWins(g, P[10].cells)]) == LineWins(g, P[10].cells);
    assert Flatten([LineWins(g, P[12].cells)]) == LineWins(g, P[12].cells);
  }

  /** A payline is recorded active iff it produced at least one win. */
  lemma {:induction false} ActiveLinesMembers(ls: seq<Payline>, rs: seq<seq<Win>>, p: Payline)
    requires |ls| == |rs|
    ensures p in ActiveLines(ls, rs) <==> exists i :: 0 <= i < |ls| && ls[i] == p && rs[i] != []
  {
    if ls != [] {
      var n := |ls| - 1;
      var last := if rs[n] != [] then [ls[n]] else [];
      assert ActiveLines(ls, rs) == ActiveLines(ls[..n], rs[..n]) + last;
      ActiveLinesMembers(ls[..n], rs[..n], p);
      if exists i :: 0 <= i < |ls| && ls[i] == p && rs[i] != [] {
        var i :| 0 <= i < |ls| && ls[i] == p && rs[i] != [];
        if i < n {
          assert ls[..n][i] == p && rs[..n][i] != [];
        } else {
          assert p in last;
        }
      }
      if p in ActiveLines(ls[..n], rs[..n]) {
        var i :| 0 <= i < n && ls[..n][i] == p && rs[..n][i] != [];
        assert ls[i] == p && rs[i] != [];
      }
    }
  }

  /** A payline is recorded active iff it produced at least one win. */
  lemma ActiveIffWins(g: seq<Option<Symbol>>, ls: seq<Payline>, p: Payline)
    requires CoversAll(g, ls)
    ensures p in ScanActive(g, ls) <==> p in ls && Covers(g, p.cells) && LineWins(g, p.cells) != []
  {
    ActiveLinesMembers(ls, PerLine(g, ls), p);
  }

  /** The winning positions are duplicate-free and are exactly the cells of all wins. */
  lemma WinningPositionsSound(ws: seq<Win>)
    ensures forall i, j :: 0 <= i < j < |Dedup(AllPositions(ws))| ==>
      Dedup(AllPositions(ws))[i] != Dedup(AllPositions(ws))[j]
    ensures forall p :: p in Dedup(AllPositions(ws)) <==> exists w :: w in ws && p in w.positions
  {
    AllPositionsMembers(ws);
  }

  lemma {:induction false} AllPositionsMembers(ws: seq<Win>)
    ensures forall p :: p in AllPositions(ws) <==> exists w :: w in ws && p in w.positions
  {
    if ws != [] {
      var init := ws[..|ws| - 1];
      AllPositionsMembers(init);
      assert ws == init + [ws[|ws| - 1]];
    }
  }

  /** With a non-negative multiplier the total damage is never negative. */
  lemma TotalDamageNonNegative(ws: seq<Win>, multiplierHalves: int)
    requires multiplierHalves >= 0
    ensures TotalDamageOf(ws, multiplierHalves) >= 0
  {
    assert SumDamage(ws) * multiplierHalves >= 0;
  }

  /** The total damage of a spin without wins is 0, whatever the multiplier. */
  lemma NoWinNoDamage(multiplierHalves: int)
    ensures TotalDamageOf([], multiplierHalves) == 0
  {
  }

  /** After a winning step the multiplier is within [1, 5]; after a losing one it is 1. */
  lemma ComboRange(comboCount: int, multiplierHalves: int, hasWin: bool)
    requires comboCount >= 0
    ensures var (c, h) := ComboStep(comboCount, multiplierHalves, hasWin);
      2 <= h <= 10 && c >= 0 && (hasWin <==> c > 0) && (!hasWin ==> h == 2)
  {
  }

  /**
   * From any state, a loss followed by n wins leaves the combo count at n
   * and the multiplier at min(5, 1 + floor(n/3)/2): 1.5 after three wins,
   * 2.5 after nine, never above 5.
   */
  lemma {:induction false} WinStreakMultiplier(comboCount: int, multiplierHalves: int, n: nat)
    ensures ComboAfter(comboCount, multiplierHalves, [false] + seq(n, _ => true)) == (n, ComboHalves(n))
  {
    var outs := [false] + seq(n, _ => true);
    if n > 0 {
      WinStreakMultiplier(comboCount, multiplierHalves, n - 1);
      assert outs[..|outs| - 1] == [false] + seq(n - 1, _ => true);
    } else {
      assert outs[..0] == [];
    }
  }

  /**
   * Worked examples of `WinStreakMultiplier` (an illustration, not a further
   * property): 3, 9 and 30 straight wins after a loss give ×1.5, ×2.5 and the
   * ×5 cap.
   */
  lemma ComboExamples(comboCount: int, multiplierHalves: int)
    ensures ComboAfter(comboCount, multiplierHalves, [false, true, true, true]).1 == 3
    ensures ComboAfter(comboCount, multiplierHalves, [false] + seq(9, _ => true)).1 == 5
    ensures ComboAfter(comboCount, multiplierHalves, [false] + seq(30, _ => true)).1 == 10
  {
    WinStreakMultiplier(comboCount, multiplierHalves, 3);
    assert [false, true, true, true] == [false] + seq(3, _ => true);
    WinStreakMultiplier(comboCount, multiplierHalves, 9);
    WinStreakMultiplier(comboCount, multiplierHalves, 30);
  }

  /** The meter never exceeds 100, and a qualifying Crystal win fills it. */
  lemma JackpotAfterBounds(progress: int, g: seq<Option<Symbol>>, ws: seq<Win>)
    requires forall i :: 0 <= i < |g| ==> g[i].Some?
    ensures JackpotAfter(progress, g, ws) <= JackpotFull
    ensures (exists j :: 0 <= j < |ws| && ws[j].symbol.name == JackpotSymbol && ws[j].length >= 3) ==>
      JackpotAfter(progress, g, ws) == JackpotFull
    ensures progress >= 0 && GridGain(g) >= 0 ==> JackpotAfter(progress, g, ws) >= 0
  {
  }

  /** Each cell of a drawn grid adds at least 8, so a full grid adds at least 200. */
  lemma {:induction false} ShippedGridGain(g: seq<Option<Symbol>>)
    requires forall i :: 0 <= i < |g| ==> g[i].Some? && g[i].value in SlotSymbols
    ensures GridGain(g) >= 8 * |g|
  {
    if g != [] {
      ShippedGridGain(g[..|g| - 1]);
      SlotSymbolIncrements(g[|g| - 1].value);
    }
  }

  /** A spin from a valid engine state lands in a valid one. */
  lemma SpinStaysValid(us: seq<real>, ws: seq<Win>, progress: int, comboCount: int, halves: int, hasWin: bool)
    requires |us| == TotalPositions
    requires 0 <= progress <= JackpotFull && 0 <= comboCount && 2 <= halves
    ensures var (c, h) := ComboStep(comboCount, halves, hasWin);
            2 <= h && 0 <= c && 0 <= TotalDamageOf(ws, h)
    ensures 0 <= JackpotAfter(progress, DrawnGrid(us), ws) <= JackpotFull
  {
    ShippedGridGain(DrawnGrid(us));
    JackpotAfterBounds(progress, DrawnGrid(us), ws);
    ComboRange(comboCount, halves, hasWin);
    TotalDamageNonNegative(ws, ComboStep(comboCount, halves, hasWin).1);
  }

  /** With the shipped rarities every spin leaves the meter full and the jackpot triggered. */
  lemma EverySpinFillsMeter(progress: int, us: seq<real>, ws: seq<Win>)
    requires |us| == TotalPositions && progress >= -100
    ensures JackpotAfter(progress, DrawnGrid(us), ws) == JackpotFull
  {
    ShippedGridGain(DrawnGrid(us));
  }

  /** `coordsToIndex` undoes `indexToCoords` on every non-negative index. */
  lemma IndexCoordsRoundTrip(index: int)
    requires 0 <= index
    ensures CoordsToIndex(IndexToCoords(index).0, IndexToCoords(index).1) == index
    ensures index < TotalPositions ==> 0 <= IndexToCoords(index).0 < Rows && 0 <= IndexToCoords(index).1 < Cols
  {
  }

  /** `indexToCoords` undoes `coordsToIndex` on the grid. */
  lemma CoordsIndexRoundTrip(row: int, col: int)
    requires 0 <= row < Rows && 0 <= col < Cols
    ensures 0 <= CoordsToIndex(row, col) < TotalPositions
    ensures IndexToCoords(CoordsToIndex(row, col)) == (row, col)
  {
  }

  /**
   * `loadGameState(getGameState())` changes nothing (the multiplier is never 0
   * in play), and an empty saved state yields a freshly constructed engine.
   */
  lemma SaveRestoreRoundTrip(e: EngineState)
    requires e.multiplierHalves != 0
    ensures Restore(Save(e)) == e
    ensures Restore(SavedState(None, None, None, None, None, None, None)) == InitialState()
  {
  }

  /** The two engine copies tag paylines alike except the pattern category. */
  lemma TypeTagsDiffer(kind: LineKind)
    ensures TypeTag(kind, true) == TypeTag(kind, false) <==> kind != PatternLine
  {
  }
}
