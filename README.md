# Steampunk slot-machine RPG: a verified model of the game core

This project models, in Dafny, the rules at the heart of a browser slot-machine
RPG, where spins damage bosses, and proves what those rules promise. It covers:

- **The 5x5 engine** (`Enhanced5x5SlotMachine`, `engine.dfy`).
  - It draws 25 weighted symbols and scans twenty fixed 5-cell paylines for
    runs of at least three equal names (`runs.dfy` holds the run rule).
  - It scores each run as base damage times 1, 1.5 or 2.
  - It keeps a combo multiplier and a jackpot meter, and saves and restores
    its state.
- **The power-up table of the 5x5 game** (`BonusFeatureSystem`, `bonus.dfy`).
  This is a countdown table keyed by id, in insertion order, plus an
  append-only history.
- **The shipped game controller** (`SlotMachineGame`, `controller.dfy`).
  - It gates spins on score and free spins, clamps the bet and adds funds.
  - It applies bonus effects, boss damage and defeat, boss attacks and
    jackpot payouts.
- **The probability module** (`ProbabilitySystem`, `probability.dfy`).
  - Closed-form odds of a run on a payline, and the overall win probability.
  - Expected damage and return to player (RTP).
  - The 12-line grid scan of the simulator, and the simulation cache.
  - The RTP optimiser.
- **The streak analyser** (`WinFrequencyAnalyzer.analyzeWinFrequency`,
  `frequency.dfy`).
- **The older three-reel game** (`GameState` and `SlotMachineRPG` in
  `game.js`, `reelgame.dfy`).
  - Triple matches, critical hits and the combo multiplier.
  - Shield charges and the power-up duration maps.
  - The jackpot meter, boss and world progression, achievements, reset and
    restart.

`symbols.dfy` holds the two symbol tables and the cumulative-weight draw that
every copy of the engine uses.

The model makes these choices throughout:

- Objects whose fields the source updates in place are Dafny classes. Their
  methods are proved against functions on values: a ledger, a table or a
  small record of the fields an event touches.
- Random numbers (`Math.random()`), the clock (`Date.now()`) and fresh
  bonus ids are parameters.
- The combo multipliers, which only take half steps, are integer counts of
  halves.
- Rarities and probabilities are exact `real`s.

## Model

| member | source | states |
|---|---|---|
| Symbols.GetRandomSymbol | development/enhanced-game-logic.js:89-105 | the draw returns the first table entry whose cumulative rarity reaches `u` (the last entry as fallback), and always an entry of the table |
| Symbols.DrawSelectsInterval | development/enhanced-game-logic.js:89-105 | on a table whose rarities are positive and sum to 1, `u` in [0, 1) selects entry `i` exactly when `u` lies in that entry's interval of the cumulative weights, so each symbol is drawn with probability equal to its rarity and the fallback is never taken |
| Symbols.SlotSymbolsSumToOne | development/enhanced-game-logic.js:8-17 | the shipped 5x5 rarities are positive and sum to exactly 1 |
| Symbols.ReelSymbolsSumToOne | game.js:96-105 | the three-reel rarities are positive and sum to exactly 1 |
| Symbols.SlotSymbolIncrements | development/enhanced-game-logic.js:291-313 | each 5x5 cell adds 9 to the jackpot meter when its rarity is at most 0.10 and 8 otherwise |
| Symbols.ReelSymbolIncrements | game.js:697-702 | each three-reel symbol adds 8 or 9 to the meter |
| Runs.QualifyingSound | development/enhanced-game-logic.js:151-199 | the reported runs are blocks of equal names, maximal on both sides, in left-to-right order without overlap |
| Runs.QualifyingComplete | development/enhanced-game-logic.js:151-199 | every window of at least three equal names lies inside a reported run |
| Runs.AtMostOneRunInFive | development/enhanced-game-logic.js:151-199 | a line of at most five cells yields at most one run |
| SlotEngine.MatchDamageByLength | development/enhanced-game-logic.js:201-215 | match damage is the damage itself for a run of 3, floor(damage x 1.5) for 4, floor(damage x 2.0) for 5, and the damage itself (multiplier 1.0) for any other length |
| SlotEngine.MatchDamageIsFloor | development/enhanced-game-logic.js:201-215 | the integer computation is the floor of base damage times the length multiplier |
| SlotEngine.PaylinesWellFormed | development/enhanced-game-logic.js:28-72 | there are twenty paylines, each of five on-grid cells |
| SlotEngine.MainDiagonalPaysTwice | development/enhanced-game-logic.js:54-68 | the patterns repeat the main diagonal, so its wins appear twice in the win list |
| SlotEngine.SlotMachine.constructor | development/enhanced-game-logic.js:75-87 | a new engine has 25 empty cells, no wins, multiplier 1, combo 0 and meter 0 |
| SlotEngine.SlotMachine.GenerateGrid | development/enhanced-game-logic.js:107-116 | the grid becomes a new array of the weighted draws of the 25 given uniform values, one per cell, every cell a table symbol, with no negative-index property left over |
| SlotEngine.DrawnGridAt | development/enhanced-game-logic.js:107-116 | cell `i` of a drawn grid is the draw of the `i`-th value |
| SlotEngine.SlotMachine.GetSymbolAt | development/enhanced-game-logic.js:118-124 | the cell at flattened index row×5+col whenever that index lies inside the grid array (so an out-of-range column reads a cell of another row); for a negative index, the symbol a negative-index `setSymbolAt` stored there, if any; nothing past the end of the array; for an on-grid (row, col) of a full grid, the cell at that position |
| SlotEngine.SlotMachine.SetSymbolAt | development/enhanced-game-logic.js:126-132 | writes the cell on the grid, grows the array with holes past its end, and for a negative index leaves the elements alone and stores the symbol as a property under that index; afterwards `getSymbolAt` at the same (row, col) returns the symbol and every other flattened index reads as before |
| SlotEngine.IndexCoordsRoundTrip | development/enhanced-game-logic.js:134-146 | coordsToIndex(indexToCoords(i)) == i for every non-negative index |
| SlotEngine.CoordsIndexRoundTrip | development/enhanced-game-logic.js:134-146 | indexToCoords(coordsToIndex(r, c)) == (r, c) on the grid |
| SlotEngine.SlotMachine.CheckPaylineWin | development/enhanced-game-logic.js:151-199 | the loop's wins are exactly the wins of the qualifying runs along the payline, in order |
| SlotEngine.LineWinsSound | development/enhanced-game-logic.js:151-199 | every payline win has length between 3 and the payline length, one position per cell, positions forming a contiguous slice of the payline and all cells with the win's name |
| SlotEngine.FiveOfAKind | development/enhanced-game-logic.js:151-199 | five equal names on a payline pay exactly once, at twice the base damage |
| SlotEngine.SlotMachine.AnalyzeAllPaylines | development/enhanced-game-logic.js:217-261 | on any grid whose payline cells all hold a symbol, wins and active paylines are rebuilt from scratch in the order horizontal, vertical, diagonal, patterns |
| SlotEngine.ActiveIffWins | development/enhanced-game-logic.js:217-261 | a payline is recorded active iff it produced at least one win |
| SlotEngine.SlotMachine.CalculateTotalDamage | development/enhanced-game-logic.js:263-275 | the total damage is stored and returned as the integer value of the damage sum times the multiplier |
| SlotEngine.TotalDamageIsFloor | development/enhanced-game-logic.js:263-275 | that integer value is the floor of the damage sum times the multiplier |
| SlotEngine.TotalDamageNonNegative | development/enhanced-game-logic.js:263-275 | with a non-negative multiplier the total damage is never negative |
| SlotEngine.NoWinNoDamage | development/enhanced-game-logic.js:263-275 | a spin without wins deals 0 damage whatever the multiplier |
| SlotEngine.SlotMachine.UpdateComboSystem | development/enhanced-game-logic.js:277-289 | a win raises the combo count and sets the multiplier to min(5, 1 + floor(count/3) x 0.5); a loss resets both |
| SlotEngine.ComboRange | development/enhanced-game-logic.js:277-289 | after a win the multiplier lies in [1, 5] whatever it was before, and after a loss it is 1 |
| SlotEngine.WinStreakMultiplier | development/enhanced-game-logic.js:277-289 | a loss followed by n wins leaves count n and multiplier min(5, 1 + floor(n/3)/2) |
| SlotEngine.ComboHalvesIsMultiplier | development/enhanced-game-logic.js:277-289 | the integer count of halves is exactly the source's multiplier formula |
| SlotEngine.SlotMachine.UpdateJackpotProgress | development/enhanced-game-logic.js:291-313 | the meter gains every cell's increment, is forced to 100 by a Crystal win and is capped at 100 |
| SlotEngine.JackpotAfterBounds | development/enhanced-game-logic.js:291-313 | the meter never exceeds 100, and a qualifying Crystal win fills it |
| SlotEngine.ShippedGridGain | development/enhanced-game-logic.js:291-313 | with the shipped rarities each drawn cell adds at least 8, so a full grid adds at least 200 |
| SlotEngine.EverySpinFillsMeter | development/enhanced-game-logic.js:340-369 | with the shipped rarities every spin leaves the meter at exactly 100 and the jackpot triggered |
| SlotEngine.SlotMachine.ResetJackpot | development/enhanced-game-logic.js:322-327 | the meter returns to 0, so the jackpot is no longer triggered, and the rest of the engine state is unchanged |
| SlotEngine.SlotMachine.GetWinningPositions | development/enhanced-game-logic.js:329-338 | the positions of all wins, duplicates removed, in first-seen order |
| SlotEngine.WinningPositionsSound | development/enhanced-game-logic.js:329-338 | the winning positions are duplicate-free and are exactly the cells of all wins |
| SlotEngine.SlotMachine.Spin | development/enhanced-game-logic.js:340-369 | redraw, analyse, update the combo before scoring, so the total uses this spin's multiplier, then update the meter and return the snapshot; the new fields are `SpinState` of the old ones and the draws, and the result is `Snapshot` of them |
| SlotEngine.SlotMachine.LoadGameState | development/enhanced-game-logic.js:386-397 | each missing or falsy field takes its default (25 empty cells, no wins, no active lines, 0, 1, 0, 0), and no negative-index property remains |
| SlotEngine.SaveRestoreRoundTrip | development/enhanced-game-logic.js:371-397 | loading the saved state of any engine whose multiplier is not 0 gives that engine back, and loading an empty one yields a fresh engine |
| SlotEngine.TypeTagsDiffer | final/js/slot-game.js:154-170 | the shipped engine copy tags paylines as the development copy does, except that patterns are tagged `patterns` |
| Bonuses.PowerUpsTable | development/enhanced-game-logic.js:410-441 | the durations of the five power-ups, two of them instant |
| Bonuses.BonusFeatureSystem.constructor | development/enhanced-game-logic.js:401-405 | an empty bonus table and an empty history, bound to the engine |
| Bonuses.BonusFeatureSystem.ActivatePowerUp | development/enhanced-game-logic.js:462-484 | a power-up with a duration is stored under its fresh id, an instant one is not, and every activation is appended to the history |
| Bonuses.ActivateKeepsWellFormed | development/enhanced-game-logic.js:462-484 | activation keeps ids unique and every stored bonus counting; instant power-ups never enter the table |
| Bonuses.MapSetSound | development/enhanced-game-logic.js:474-476 | `Map.set` keeps keys unique and every other entry in place |
| Bonuses.BonusFeatureSystem.CheckPowerUpActivation | development/enhanced-game-logic.js:446-457 | each power-up, in declaration order, is activated exactly when its roll is below 0.05 |
| Bonuses.CheckFirstSound | development/enhanced-game-logic.js:446-457 | the activated list holds exactly the power-ups whose roll fired, each is logged, and the table stays well formed |
| Bonuses.NoRollNoChange | development/enhanced-game-logic.js:446-457 | with no roll below 0.05 nothing is activated or logged |
| Bonuses.BonusFeatureSystem.UpdateBonusDurations | development/enhanced-game-logic.js:489-506 | every bonus counts down by one; the expired ones are deleted and their ids returned in table order |
| Bonuses.UpdateSound | development/enhanced-game-logic.js:489-506 | an entry is removed and reported exactly when it had one turn left; the rest stay, one turn shorter, and the table stays well formed |
| Bonuses.DeleteAllIsKeep | development/enhanced-game-logic.js:500-503 | deleting the collected ids one at a time keeps exactly the entries with other ids |
| Bonuses.Lifetime | development/enhanced-game-logic.js:489-506 | a bonus with n turns left survives n - 1 updates and is gone after the n-th |
| Bonuses.BonusFeatureSystem.GetActiveBonuses | development/enhanced-game-logic.js:511-513 | the stored bonuses, each with turns left within its duration and none of them instant |
| Bonuses.BonusFeatureSystem.IsBonusActive | development/enhanced-game-logic.js:518-522 | true iff some stored bonus carries the name |
| Bonuses.InstantNeverActive | development/enhanced-game-logic.js:474-476 | only power-ups with a duration can be active |
| Bonuses.BonusFeatureSystem.ApplyBonusEffects | development/enhanced-game-logic.js:527-541 | doubles the damage iff Double Damage is active, and adds 1 to the engine multiplier iff Combo Boost is active |
| Bonuses.ComboBoostOverwritten | development/enhanced-game-logic.js:277-289 | Combo Boost's bump is lost at the next combo update, which ignores the old multiplier |
| Game.SlotMachineGame.constructor | final/js/slot-game.js:616-645 | the starting ledger (100 health of 100, 100 score, bet 10, no spins or wins, no free spins, world 0, the three bosses at full health), an empty bonus table, and the engine's first grid drawn |
| Game.InitialLedgerValid | final/js/slot-game.js:616-645 | the starting ledger satisfies the controller invariant |
| Game.SlotMachineGame.BeginSpin | final/js/slot-game.js:812-825 | a spin is refused when the score is below the bet and no free spin is left; otherwise a free spin is used first, else the bet is paid |
| Game.ChargeSound | final/js/slot-game.js:812-825 | the gate refuses exactly then, and neither the score nor the free spins ever go negative through a spin |
| Game.SlotMachineGame.Spin | final/js/slot-game.js:809-853 | a spin goes ahead exactly when the gate lets it, and a refused spin changes nothing; a spin that goes ahead charges the ledger, leaves the engine in `SpinState` of the draws (with Combo Boost's bump and the jackpot reset applied), settles that snapshot, applies and counts down the power-ups, and lets the boss strike; the controller invariant still holds |
| Game.SlotMachineGame.ProcessSpinResult | final/js/slot-game.js:855-902 | the ledger after settling a win, applying the activated power-ups, counting down and the boss's attack |
| Game.RoundKeepsValid | final/js/slot-game.js:855-902 | a processed result keeps the controller invariant |
| Game.SlotMachineGame.SettleWin | final/js/slot-game.js:861-884 | a result with wins adds one win, deals the damage after bonuses, scores ten per point and pays a jackpot |
| Game.SettleSound | final/js/slot-game.js:861-884 | score, wins and jackpot change only on a result with wins; a jackpot pays 5000 score and 10 free spins |
| Game.SlotMachineGame.RunPowerUps | final/js/slot-game.js:886-894 | roll for power-ups, apply each instant effect in activation order, then count the table down |
| Game.SlotMachineGame.DealDamageToBoss | final/js/slot-game.js:904-911 | boss health becomes max(0, health - damage) |
| Game.DealDamageSound | final/js/slot-game.js:904-911 | the boss is defeated exactly when its health reaches 0 |
| Game.SlotMachineGame.DefeatBoss | final/js/slot-game.js:913-926 | pays 1000 score and 5 free spins, and moves to the next world with a fully healed boss unless already on the last one |
| Game.DefeatSound | final/js/slot-game.js:913-926 | the world index never passes the last world |
| Game.LastBossRepays | final/js/slot-game.js:913-926 | on the last world a dead boss pays its reward again on every hit |
| Game.SlotMachineGame.BossAttack | final/js/slot-game.js:928-946 | no damage when the boss is dead or Mechanical Shield is active; otherwise health becomes max(0, health - attack) |
| Game.AttackSound | final/js/slot-game.js:928-946 | player health never goes negative and never rises through an attack |
| Game.SlotMachineGame.ApplyPowerUpEffect | final/js/slot-game.js:948-957 | Steam Healing heals 30 up to the maximum, Multi-Spin adds 3 free spins, the others do nothing here |
| Game.PowerUpEffectSound | final/js/slot-game.js:948-957 | healing stops at the maximum, Multi-Spin adds exactly 3 free spins |
| Game.SlotMachineGame.TriggerJackpot | final/js/slot-game.js:959-964 | 5000 score, 10 free spins, and the engine's meter back to 0 |
| Game.SlotMachineGame.AdjustBet | final/js/slot-game.js:966-970 | the bet moves by delta, clamped to [1, 100] |
| Game.AdjustedBetSound | final/js/slot-game.js:966-970 | the bet stays in [1, 100] and moves by exactly delta when that stays in range |
| Game.SlotMachineGame.SetBetFromField | final/js/slot-game.js:703-706 | the bet field sets the bet to its parsed value, clamped |
| Game.BetFromFieldSound | final/js/slot-game.js:703-706 | the bet lies in [1, 100], and is 10 for an empty, unparsable or zero value |
| Game.SlotMachineGame.AddFunds | final/js/slot-game.js:712-718 | add-funds adds the parsed amount to the score |
| Game.FundsAddedSound | final/js/slot-game.js:712-718 | the score rises by exactly a positive amount and is otherwise unchanged |
| Game.BoostedDamageSound | final/js/slot-game.js:326-338 | Double Damage doubles the damage, and a non-negative base never shrinks |
| Probability.ProbabilitySystem.constructor | development/probability-system.js:30-39 | the rarity map and the payline odds are built from the shipped table, and the cache is empty |
| Probability.CalculateSymbolProbabilities | development/probability-system.js:41-59 | the name-to-rarity map, the rarity total, and a warning exactly when the total is off 1 by more than 0.001 |
| Probability.ShippedTableNoWarning | development/probability-system.js:41-59 | the shipped rarities sum to exactly 1, so no warning is raised |
| Probability.RarityMapAt | development/probability-system.js:41-59 | with unique names, the map holds each entry's own rarity |
| Probability.ProbabilitySystem.GetSymbolProbability | development/probability-system.js:61-63 | the rarity of a known name, 0 for an unknown one |
| Probability.TableNameProbability | development/probability-system.js:41-63 | over the map built from a table with unique names, a table name gets its entry's rarity and any other name 0 |
| Probability.PowLoop | development/probability-system.js:68-84 | repeated multiplication computes `Math.pow` for a natural exponent |
| Probability.CalculateMatchProbability | development/probability-system.js:68-84 | p^n when the run fills the line, p^n x (1 - p) otherwise |
| Probability.ProbabilitySystem.CalculateMinMatchProbability | development/probability-system.js:86-97 | the sum of the exact-length odds for lengths from the minimum to the line length |
| Probability.MinMatchTelescopes | development/probability-system.js:86-97 | that sum telescopes to p^min, the chance of at least min in a row |
| Probability.CalculatePaylineProbabilities | development/probability-system.js:99-115 | every table name gets the odds of its rarity |
| Probability.OddsConsistent | development/probability-system.js:99-115 | the `atLeast3` odds are the three exact odds together |
| Probability.ProbabilitySystem.CalculateSinglePaylineWinProbability | development/probability-system.js:117-128 | the sum of every symbol's `atLeast3` odds |
| Probability.ShippedSingleLineWin | development/probability-system.js:117-128 | for the shipped table, one line wins with probability 17/800 |
| Probability.TotalPaylinesMatchesEngine | development/probability-system.js:130-136 | the payline total is 20, the number of lines the engine scans |
| Probability.ProbabilitySystem.CalculateOverallWinProbability | development/probability-system.js:138-150 | 1 - (1 - s)^20 for the single-line probability s |
| Probability.OverallWinInUnit | development/probability-system.js:138-150 | for 0 < s < 1 the overall win probability lies strictly between 0 and 1 and is at least s |
| Probability.ProbabilitySystem.CalculateExpectedDamage | development/probability-system.js:152-173 | the expected damage over the 20 lines from the stored payline odds |
| Probability.SymbolExpectedDamageClosed | development/probability-system.js:152-173 | one symbol's expected damage in closed form, with length multipliers 1, 1.5 and 2 |
| Probability.ProbabilitySystem.CalculateRTP | development/probability-system.js:175-183 | expected damage times the ratio, over the spin cost, in percent; nothing for a zero cost |
| Probability.RTPSound | development/probability-system.js:175-183 | the RTP exists for every non-zero cost and scales with the ratio |
| Probability.ProbabilitySystem.SimulateSpins | development/probability-system.js:185-241 | a repeated call with the same count returns the cached result; otherwise the tally of the simulated spins (spins, winning spins, damage, wins per symbol and per run length) is stored under that count |
| Probability.ProbabilitySystem.RunSpins | development/probability-system.js:192-214 | the counting loop of the simulation gives exactly the tally of its draws |
| Probability.ProbabilitySystem.CountWins | development/probability-system.js:209-212 | each win of a spin adds one to the count of its symbol and one to the count of its length |
| Probability.TallyCounts | development/probability-system.js:185-241 | a simulation counts every spin and at most every spin wins; every win is counted once by symbol and once by length, each length is 3, 4 or 5, and without a winning spin no damage and no win is tallied |
| Probability.GridWinLengths | development/probability-system.js:282-363 | every win the grid scan finds over lines of at most five cells is 3 to 5 long |
| Probability.SimulateSingleSpin | development/probability-system.js:243-263 | a spin's outcome is the wins of its drawn grid |
| Probability.DrawGrid | development/probability-system.js:265-280 | the 25 cells are the weighted draws of the given values |
| Probability.AnalyzeGridForWins | development/probability-system.js:282-319 | the wins of the 5 rows, 5 columns, main diagonal and anti-diagonal, in that order |
| Probability.ScanLinesAreEnginePaylines | development/probability-system.js:282-319 | those 12 lines are exactly the engine's horizontal, vertical and diagonal paylines |
| Probability.CheckLineForWins | development/probability-system.js:321-353 | the loop's wins are exactly the wins of the qualifying runs of the line |
| Probability.LineWinsSound | development/probability-system.js:321-353 | each win is a block of at least three equal names, no longer than the line, with the match damage of its length |
| Probability.ProbabilitySystem.CalculateJackpotProbability | development/probability-system.js:368-386 | the Crystal odds of the stored payline table and the chance over 20 lines |
| Probability.JackpotChanceInUnit | development/probability-system.js:368-386 | when Crystal's single-line chance lies strictly between 0 and 1, so does the chance per spin, which is at least the single-line chance, and the expected wait is its reciprocal |
| Probability.ProbabilitySystem.OptimizeForTargetRTP | development/probability-system.js:433-480 | as written: the result is always the shipped table at the shipped RTP, after 0 or all iterations |
| Probability.ShippedRTP | development/probability-system.js:433-480 | the shipped table's RTP is 1014.3059375, so the default target 95 makes the search run every iteration |
| Probability.AsWrittenMisjudgesCandidate | development/probability-system.js:433-480 | a candidate with a better RTP (963.2091077123928048) that the as-written search never takes |
| Probability.ProbabilitySystem.OptimizeForTargetRTPCorrected | development/probability-system.js:433-480 | the result's RTP is that of its own table, is never further from the target than the start, and stopping early means it is within 1 of the target |
| WinFrequency.AnalyzeWinFrequency | development/probability-system.js:490-535 | the report of the outcome sequence of the simulated spins |
| WinFrequency.RecordSpin | development/probability-system.js:503-524 | one spin keeps the counters in step with the outcomes: it extends the streak of its outcome and closes the other one |
| WinFrequency.MaxStreakIsLongest | development/probability-system.js:490-535 | the maximum streaks are the longest runs: no run is longer and one is that long |
| WinFrequency.ClosedAccount | development/probability-system.js:490-535 | every spin is in exactly one place, an ended streak or the trailing one, which is never pushed; each ended streak is positive and at most the longest |
| WinFrequency.OneStreakRunning | development/probability-system.js:490-535 | one of the two current streaks is always 0, and after any spin the other is positive |
| WinFrequency.AverageBounds | development/probability-system.js:527-533 | the averages lie between 1 and the longest streak, and are 0 when no streak has ended |
| WinFrequency.CalculateDistribution | development/probability-system.js:541-555 | each length's share of the ended streaks, in percent |
| WinFrequency.DistributionSound | development/probability-system.js:541-555 | the keys are exactly the lengths that occurred, each with its share in percent |
| WinFrequency.CountsAreMultiplicities | development/probability-system.js:541-555 | the counts are the multiplicities of the lengths |
| ReelGame.GameState.constructor | game.js:8-41 | a new game state: health 100 of 100, multiplier 1, empty maps and achievements, default settings |
| ReelGame.GameState.Reset | game.js:44-63 | every field returns to its starting value except the achievements and the settings |
| ReelGame.ResetForgets | game.js:44-63 | two states reset alike iff they have the same achievements and settings, and resetting twice is resetting once |
| ReelGame.ReelDrawFollowsRarity | game.js:379-392 | `u` in [0, 1) draws symbol `i` exactly when it falls in that symbol's rarity interval, so the fallback is never taken |
| ReelGame.SlotMachineRPG.constructor | game.js:269-282 | a new game with the first boss and the first world |
| ReelGame.SlotMachineRPG.CheckWinCondition | game.js:481-490 | a win iff the three names agree, dealing the first symbol's damage |
| ReelGame.TripleMatchOnReels | game.js:481-490 | on the three-reel table a win means three equal symbols |
| ReelGame.SlotMachineRPG.HandleWin | game.js:493-559 | the fields a win touches move as `AfterWin` says |
| ReelGame.SlotMachineRPG.Strike | game.js:494-534 | the hit, before any defeat: damage, critical count, streak, multiplier, score, total damage and boss health |
| ReelGame.GameState.SpendDoubleDamage | game.js:502-507 | Double Damage doubles the damage and is removed from both maps |
| ReelGame.GameState.Critical | game.js:513-518 | a critical hit deals floor(1.5 x damage) and is counted |
| ReelGame.GameState.GrowCombo | game.js:521-524 | every third win in a row raises the multiplier by 0.5 while it is below 5 |
| ReelGame.GameState.Credit | game.js:527-529 | the score gains floor(damage x 10 x multiplier) and the damage is added to the total |
| ReelGame.AfterWinSound | game.js:493-559 | the damage dealt is at least the base damage times the multiplier from before the win; Double Damage is used up; the multiplier never falls, and passes 5 only if it already had; the boss loses exactly the damage credited, floored at 0; the boss is defeated, with two free spins, exactly when its health reaches 0 |
| ReelGame.DamageDealtBounds | game.js:498-518 | a win deals between the multiplier's share of the base damage and 1.5 times twice that, and a critical hit never deals less |
| ReelGame.StreakGrowth | game.js:520-524 | after k wins in a row the multiplier is min(5, 1 + 0.5 x floor(k/3)), reaching 5 exactly from the 24th win |
| ReelGame.SlotMachineRPG.DefeatBoss | game.js:611-645 | one more boss defeated, five times its maximum health in score, two free spins |
| ReelGame.SlotMachineRPG.HandleLoss | game.js:562-608 | the fields a loss touches move as `AfterLoss` says |
| ReelGame.AfterLossSound | game.js:562-608 | the streak and multiplier reset; an active shield takes the hit, losing one block, and its last block removes the shield from both the active and the durations map; otherwise health becomes max(0, health - attack) and the game is over exactly at 0 |
| ReelGame.BossDamageBounds | game.js:586-591 | the boss deals its attack, or floor(1.5 x attack) on a critical hit |
| ReelGame.ShieldBlocksTwoAttacks | game.js:568-583 | a fresh shield absorbs the next two losses without damage and is then gone from both maps; the third loss hits |
| ReelGame.SlotMachineRPG.ActivatePowerUp | game.js:1018-1050 | the fields a power-up touches move as `Activated` says |
| ReelGame.ActivatedSound | game.js:1018-1050 | an unknown key is a no-op; Double Damage lasts 3; healing adds 30 up to the maximum; the shield holds 2 blocks for 2 updates; Multi-Spin adds 3 free spins; Combo Boost adds 1 to the multiplier for 5 updates without becoming active; the maps stay valid |
| ReelGame.SlotMachineRPG.UpdatePowerUpDurations | game.js:1064-1074 | one pass over the duration entries gives the maps `Ticked` describes |
| ReelGame.TickedSound | game.js:1064-1074 | positive durations count down by one and keep their power-up; a duration of 0 removes it from both maps; nothing is added |
| ReelGame.LastsDuration | game.js:1064-1074 | a power-up with duration d is still there, unchanged, with d - n left after n <= d updates |
| ReelGame.ExpiresAfterDuration | game.js:1064-1074 | that power-up is gone from both maps after d + 1 updates |
| ReelGame.SlotMachineRPG.UpdateJackpotProgress | game.js:697-716 | the meter fields move as `JackpotMetered` says |
| ReelGame.SlotMachineRPG.TriggerJackpot | game.js:719-736 | the meter to 0, 1000 + 500 per world index in score, the Jackpot Winner achievement and five free spins |
| ReelGame.JackpotMeteredSound | game.js:697-736 | a loss changes nothing; a win pays exactly when it is a Crystal triple or fills the meter to 100, so always from 92 up; the meter stays in [0, 100) |
| ReelGame.SlotMachineRPG.NextBoss | game.js:648-694 | when a world is left, the progression moves as `Advanced` says and nothing else changes; otherwise the game restarts |
| ReelGame.SlotMachineRPG.Advance | game.js:651-686 | the progression fields move as `Advanced` says, and the other fields of the game state are unchanged |
| ReelGame.SlotMachineRPG.FaceBoss | game.js:656-657 | the boss index and a fresh copy of that boss |
| ReelGame.SlotMachineRPG.EnterWorld | game.js:660-662 | the world index, a copy of the world taken before it is unlocked, and the world unlocked in the table |
| ReelGame.SlotMachineRPG.Recover | game.js:679-686 | health up to 50 more, capped at the maximum, then the maximum and the health each raised by 10 |
| ReelGame.AdvancedSound | game.js:648-694 | from a consistent position the game advances exactly while a world is left, into the next world and its boss at full health, unlocking that world and no other; health stays within the maximum, which rises by 10 |
| ReelGame.SlotMachineRPG.RestartGame | game.js:756-790 | the game state is reset, boss and world go back to the first, and only the first world stays unlocked |
| ReelGame.SlotMachineRPG.UseFreeSpin | game.js:404-407 | a spin uses a free spin exactly when one remains, leaving one fewer |
| ReelGame.FreeSpinsAfterSpinSound | game.js:404-407 | the free-spin count never goes negative and drops by one exactly when it was positive |
| ReelGame.FreeSpinsAfterSpinsIsMin | game.js:404-407 | k spins use up min(n, k) of n free spins |
| ReelGame.SlotMachineRPG.CountSpin | game.js:442 | every spin adds one to the spin count that Spin Master reads, and changes no other counter |
| ReelGame.SlotMachineRPG.CheckAchievements | game.js:1209-1216 | the achievements and score move as `Achieved` says |
| ReelGame.GameState.UnlockAchievement | game.js:1218-1226 | the achievement is recorded and 100 is added to the score |
| ReelGame.AchievedSound | game.js:1209-1226 | the held set grows by exactly the achievements whose condition holds, and the score by 100 for each new one |
| ReelGame.AchievedIdempotent | game.js:1209-1216 | checking twice unlocks nothing more, so each achievement is unlocked at most once |

## Left out

- Presentation is not modelled: DOM updates, messages, notifications, modals, floating text, screen shake, the 3D renderer, animations and timers. `async`/`await` sequencing is not modelled either.
  - `triggerJackpot` in `game.js` grants its five free spins after a delay; the model grants them at once.
  - The boss attack that `SlotMachineGame` schedules one second after processing happens at the end of `ProcessSpinResult`.
- Randomness and the clock are not modelled; every `Math.random()` and `Date.now()` value is a parameter.
- Floating point is not modelled. Rarities, probabilities and the RTP are exact reals, so a uniform value that lands exactly on a cumulative boundary in IEEE arithmetic may draw differently. The multipliers are exact because they are counts of halves.
- Persistence is not modelled: `GameState.save`/`load`, `loadGameProgress`/`saveGameProgress` (local storage and JSON), and the settings dialog. The engine's own `getGameState`/`loadGameState` are modelled.
- `spin` and `checkForPowerUp` in `game.js` are not modelled as whole methods. They sequence the modelled steps with animations and one extra random roll. The two counters `spin` updates itself, the free-spin use and the spin count, are `UseFreeSpin` and `CountSpin`; each step it calls is modelled.
- `SlotMachineGame`'s auto-spin, `toggleAutoSpin`, `updateUI` and the loading screen are not modelled, because they are UI control flow.
- `generateProbabilityReport`, `validateCalculations`, and the simulator's ratios (win rate, average damage, per-symbol win rates, match-length distribution) are not modelled; they are floating-point summaries. The integer counters of `simulateSpins` behind them (`totalWins`, `totalDamage`, `symbolWins`, `matchLengthStats`) and its cache are modelled.
- The world table `WORLDS` of `game.js` is a module-level array that the game rewrites. It is the `worlds` field of `SlotMachineRPG`, so its sharing with other code is not modelled.
- The combo boost of `game.js` raises the multiplier by 1 and is never undone when its duration ends; the model keeps this behaviour as written.
- SlotEngine.SlotMachine.CheckPaylineWin, SlotEngine.SlotMachine.AnalyzeAllPaylines, SlotEngine.SlotMachine.UpdateJackpotProgress: the model stores a `null` cell and an array hole alike as `None`. `CheckPaylineWin` and `AnalyzeAllPaylines` require every cell a payline reads to hold a symbol; a grid longer than 25 cells is accepted. `UpdateJackpotProgress` requires every element of the grid to hold a symbol. The source throws a TypeError on a `null` cell that it reads (a fresh engine, or nulls from `loadGameState`), and on a hole that a payline reads; that error path is not modelled. The source's `forEach` in `updateJackpotProgress` skips holes, so after `setSymbolAt` past the end of the array it adds the increments of the cells present; the model's requires excludes that grid, because it cannot tell the hole from a `null`. Only a direct call after `setSymbolAt` or `loadGameState` reaches such grids; `spin` always redraws the whole 25-cell grid first.
- SlotEngine.SlotMachine.GetGameState, SlotEngine.SlotMachine.LoadGameState: `getGameState` hands out the live grid array, not a copy. The model's saved state is a value, so the sharing of that array between a saved state and the engine is not modelled. Neither are negative-index properties that travel with the shared array; `LoadGameState` leaves none.
- ReelGame.AdvancedSound: it states its properties only from a consistent position, where each world's one boss matches the world index and health is within bounds. `Advanced` itself follows the source from any position.
- ReelGame.SlotMachineRPG.NextBoss: it requires the world index to lie within the world table and the table to keep its shape. The source indexes the table without a check.
- Probability.ProbabilitySystem.SimulateSpins: only the spin count is a cache key. The draws are parameters, so a repeated count returns the cached tally whatever draws are passed, which is what the source does.

## Findings

| source | as written | input that shows it | evidently intended | confidence | as-written member | corrected member |
|---|---|---|---|---|---|---|
| development/probability-system.js:433-480 | each candidate's RTP is read from a fresh system whose payline odds were built from the shipped table in its constructor, so the candidate's rarities never enter the RTP: the search always returns the shipped table at RTP 1014.3059375 | target 95, with draws 0.01 for Gear and 0.99 for Button (both in [0, 1), the others 0.5), which move 0.0098 of rarity from Gear to Button; that candidate's real RTP is 963.2091077123928048, closer to the target, yet its trial reports 1014.3059375 and it is rejected | rebuild the trial system's payline odds from the candidate's rarities before reading its RTP, so a closer candidate is kept | not executed | Probability.ProbabilitySystem.OptimizeForTargetRTP, Probability.AsWrittenMisjudgesCandidate | Probability.ProbabilitySystem.OptimizeForTargetRTPCorrected |
