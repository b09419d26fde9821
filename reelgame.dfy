/**
 * The older three-reel game (`GameState` and the state-changing half of
 * `SlotMachineRPG`): triple matches, the combo multiplier, power-up maps,
 * shield charges, the jackpot meter, boss and world progression and
 * achievements.
 *
 * Each event is a function on a small record of the fields it touches
 * (`WinLedger`, `LossLedger`, `Boosts`, `Meter`, `Trophies`, `Progress`);
 * the class methods change those fields in place and are proved to agree
 * with the functions, and the lemmas state what the functions promise. The
 * combo multiplier, which the source keeps as a number stepping by 0.5, is
 * kept as a count of halves. `Math.random()` is a parameter of each method
 * that rolls; DOM updates, messages, animation, delays and local storage are
 * not modelled.
 */
module ReelGame {
  import opened Wrappers
  import opened Numbers
  import Symbols

  // ---------------------------------------------------------------------
  // Tables
  // ---------------------------------------------------------------------

  /** The `effect` of a power-up; the effect names are the keys of the power-up maps. */
  datatype Effect = DoubleDamage | Heal | Shield | FreeSpins | ComboBoost

  datatype PowerUp = PowerUp(name: string, duration: nat, effect: Effect)

  /** `POWER_UPS[key]`, or `None` for a key the table does not have. */
  function PowerUpFor(key: string): Option<PowerUp> {
    if key == "DOUBLE_DAMAGE" then Some(PowerUp("Double Damage", 3, DoubleDamage))
    else if key == "HEALING" then Some(PowerUp("Steam Healing", 0, Heal))
    else if key == "SHIELD" then Some(PowerUp("Mechanical Shield", 2, Shield))
    else if key == "MULTI_SPIN" then Some(PowerUp("Multi-Spin", 0, FreeSpins))
    else if key == "COMBO_BOOST" then Some(PowerUp("Combo Boost", 5, ComboBoost))
    else None
  }

  datatype World = World(name: string, bosses: seq<nat>, unlocked: bool)

  /** `WORLDS` as the game starts; each world lists the indices of its bosses. */
  const Worlds: seq<World> := [
    World("Mechanical Foundry", [0], true),
    World("Steam Gardens", [1], false),
    World("Sky Fortress", [2], false)
  ]

  datatype Boss = Boss(name: string, health: int, maxHealth: int, level: nat,
                       attackDamage: nat, world: nat, criticalChance: real)

  const Bosses: seq<Boss> := [
    Boss("Mechanical Spider", 100, 100, 1, 15, 0, 0.1),
    Boss("Steam Golem", 150, 150, 2, 20, 1, 0.15),
    Boss("Airship Captain", 200, 200, 3, 25, 2, 0.2)
  ]

  datatype AchievementId =
    FirstWin | BossSlayer | DamageDealer | CriticalMaster | SpinMaster | WorldExplorer | JackpotWinner

  /** `Object.values(ACHIEVEMENTS)`, in declaration order. */
  const Achievements: seq<AchievementId> :=
    [FirstWin, BossSlayer, DamageDealer, CriticalMaster, SpinMaster, WorldExplorer, JackpotWinner]

  /** Chance of a player critical hit on a win. */
  const CriticalChance: real := 0.15
  /** The multiplier's starting value and its cap for streak growth, in halves (1 and 5). */
  const BaseHalves: int := 2
  const CapHalves: int := 10
  const HealAmount: int := 30
  const AchievementScore: int := 100

  /**
   * A value of `activePowerUps`: Double Damage stores `true`, Mechanical
   * Shield a count of blocks left.
   */
  datatype Active = Flag | Count(n: int)

  /** The number JavaScript reads from a stored value (`true` counts as 1). */
  function Numeric(v: Active): int {
    match v
    case Flag => 1
    case Count(n) => n
  }

  datatype Settings = Settings(soundEnabled: bool, animationsEnabled: bool, autoSpin: bool)

  /** The outcome of `checkWinCondition`. */
  datatype WinResult = Win(symbol: Symbols.Symbol, damage: nat) | NoWin


  // ---------------------------------------------------------------------
  // Matching and damage
  // ---------------------------------------------------------------------

  /** `checkWinCondition`: a win when the three names agree, dealing the first symbol's damage. */
  function TripleMatch(a: Symbols.Symbol, b: Symbols.Symbol, c: Symbols.Symbol): WinResult {
    if a.name == b.name && b.name == c.name then Win(a, a.damage) else NoWin
  }

  /**
   * Damage of a win: doubled by Double Damage, then scaled by the multiplier
   * and floored, then by 1.5 on a critical hit and floored.
   */
  function DamageDealt(base: int, doubled: bool, halves: int, critical: bool): int {
    var d := if doubled then base * 2 else base;
    var scaled := (d * halves) / 2;
    if critical then (scaled * 3) / 2 else scaled
  }

  /** Streak and multiplier after one more win: every third win adds 0.5 while below 5. */
  function ComboStep(streak: int, halves: int): (int, int) {
    var wins := streak + 1;
    (wins, if wins % 3 == 0 && halves < CapHalves then halves + 1 else halves)
  }

  /** Streak and multiplier after `k` wins in a row following a loss. */
  function Streak(k: nat): (int, int) {
    if k == 0 then (0, BaseHalves) else ComboStep(Streak(k - 1).0, Streak(k - 1).1)
  }

  // ---------------------------------------------------------------------
  // Power-up maps
  // ---------------------------------------------------------------------

  /** `activePowerUps` and `powerUpDurations`, keyed by effect. */
  datatype PowerUps = PowerUps(active: map<Effect, Active>, durations: map<Effect, int>)

  /** Delete `k` from both maps. */
  function Remove(p: PowerUps, k: Effect): PowerUps {
    PowerUps(p.active - {k}, p.durations - {k})
  }

  /** Every active power-up has a duration, and no duration is negative. */
  predicate PowerUpsValid(p: PowerUps) {
    (forall k :: k in p.active ==> k in p.durations) &&
    (forall k :: k in p.durations ==> 0 <= p.durations[k])
  }

  /** Whether a shield with blocks left is active. */
  predicate Shielded(p: PowerUps) {
    Shield in p.active && Numeric(p.active[Shield]) > 0
  }

  /** A blocked attack: one block fewer, and the shield gone from both maps at 0. */
  function SpendShield(p: PowerUps): PowerUps
    requires Shielded(p)
  {
    var left := Numeric(p.active[Shield]) - 1;
    if left <= 0 then Remove(p, Shield) else p.(active := p.active[Shield := Count(left)])
  }

  /** Whether the update removes the power-up `k` (its duration is not positive). */
  predicate Expires(durations: map<Effect, int>, k: Effect) {
    k in durations && durations[k] <= 0
  }

  /** `updatePowerUpDurations`: positive durations count down, the others are removed from both maps. */
  function Ticked(p: PowerUps): PowerUps {
    PowerUps(map k | k in p.active && !Expires(p.durations, k) :: p.active[k],
             map k | k in p.durations && p.durations[k] > 0 :: p.durations[k] - 1)
  }

  /** `n` successive updates. */
  function Updates(p: PowerUps, n: nat): PowerUps {
    if n == 0 then p else Ticked(Updates(p, n - 1))
  }

  // ---------------------------------------------------------------------
  // Winning and losing
  // ---------------------------------------------------------------------

  /** The fields `handleWin` (with `defeatBoss`) changes, and the boss. */
  datatype WinLedger = WinLedger(
    winCount: int,
    consecutiveWins: int,
    powerUps: PowerUps,
    criticalHits: int,
    comboHalves: int,
    score: int,
    totalDamageDealt: int,
    bossesDefeated: int,
    freeSpinsRemaining: int,
    boss: Boss)

  /** The hit of `handleWin` for a win of `damage`, given whether it is critical, before any defeat. */
  function Struck(w: WinLedger, damage: int, critical: bool): WinLedger {
    var doubled := DoubleDamage in w.powerUps.active;
    var final := DamageDealt(damage, doubled, w.comboHalves, critical);
    var combo := ComboStep(w.consecutiveWins, w.comboHalves);
    WinLedger(w.winCount + 1, combo.0,
              if doubled then Remove(w.powerUps, DoubleDamage) else w.powerUps,
              if critical then w.criticalHits + 1 else w.criticalHits,
              combo.1, w.score + final * 5 * combo.1, w.totalDamageDealt + final,
              w.bossesDefeated, w.freeSpinsRemaining, w.boss.(health := Max(0, w.boss.health - final)))
  }

  /** `defeatBoss`: five times the boss's maximum health in score and two free spins. */
  function Defeat(w: WinLedger): WinLedger {
    w.(bossesDefeated := w.bossesDefeated + 1, score := w.score + w.boss.maxHealth * 5,
       freeSpinsRemaining := w.freeSpinsRemaining + 2)
  }

  /** `handleWin`: the hit, then the boss's defeat when its health reaches 0. */
  function AfterWin(w: WinLedger, damage: int, critical: bool): WinLedger {
    var w1 := Struck(w, damage, critical);
    if w1.boss.health <= 0 then Defeat(w1) else w1
  }

  /** The boss's attack: 1.5 times, floored, on a boss critical hit. */
  function BossDamage(boss: Boss, critical: bool): int {
    if critical then (boss.attackDamage * 3) / 2 else boss.attackDamage
  }

  /** The fields `handleLoss` (with `gameOver`) changes. */
  datatype LossLedger = LossLedger(
    consecutiveWins: int, comboHalves: int, powerUps: PowerUps, playerHealth: int, gameOver: bool)

  /** `handleLoss` against `boss`, given whether its attack is critical. */
  function AfterLoss(l: LossLedger, boss: Boss, critical: bool): LossLedger {
    var l0 := l.(consecutiveWins := 0, comboHalves := BaseHalves);
    if Shielded(l.powerUps) then l0.(powerUps := SpendShield(l.powerUps))
    else
      var health := Max(0, l.playerHealth - BossDamage(boss, critical));
      l0.(playerHealth := health, gameOver := if health <= 0 then true else l.gameOver)
  }

  // ---------------------------------------------------------------------
  // Power-up activation
  // ---------------------------------------------------------------------

  /** The fields `activatePowerUp` changes. */
  datatype Boosts = Boosts(powerUps: PowerUps, playerHealth: int, freeSpinsRemaining: int, comboHalves: int)

  /** `activatePowerUp(key)` with the player's maximum health; an unknown key changes nothing. */
  function Activated(b: Boosts, maxHealth: int, key: string): Boosts {
    match PowerUpFor(key)
    case None => b
    case Some(p) =>
      match p.effect
      case DoubleDamage =>
        b.(powerUps := PowerUps(b.powerUps.active[DoubleDamage := Flag],
                                b.powerUps.durations[DoubleDamage := p.duration]))
      case Heal => b.(playerHealth := Min(maxHealth, b.playerHealth + HealAmount))
      case Shield =>
        b.(powerUps := PowerUps(b.powerUps.active[Shield := Count(2)],
                                b.powerUps.durations[Shield := p.duration]))
      case FreeSpins => b.(freeSpinsRemaining := b.freeSpinsRemaining + 3)
      case ComboBoost =>
        b.(comboHalves := b.comboHalves + 2,
           powerUps := b.powerUps.(durations := b.powerUps.durations[ComboBoost := p.duration]))
  }

  // ---------------------------------------------------------------------
  // Jackpot
  // ---------------------------------------------------------------------

  /** The fields the jackpot changes. */
  datatype Meter = Meter(progress: int, score: int, achievements: set<AchievementId>, freeSpinsRemaining: int)

  /** `triggerJackpot` in world `world`: meter to 0, 1000 + 500 per world index, the achievement, five free spins. */
  function JackpotPaid(m: Meter, world: int): Meter {
    Meter(0, m.score + 1000 + world * 500, m.achievements + {JackpotWinner}, m.freeSpinsRemaining + 5)
  }

  /** `updateJackpotProgress`: a win adds its symbol's increment; a Crystal triple or a full meter pays. */
  function JackpotMetered(m: Meter, world: int, result: WinResult): Meter {
    if result.NoWin? then m
    else
      var m1 := m.(progress := m.progress + Symbols.JackpotIncrement(result.symbol));
      if result.symbol.name == Symbols.Crystal then JackpotPaid(m1, world)
      else if m1.progress >= 100 then JackpotPaid(m1, world)
      else m1
  }

  // ---------------------------------------------------------------------
  // Achievements
  // ---------------------------------------------------------------------

  /** The counters the achievement conditions read. */
  datatype Record = Record(winCount: int, bossesDefeated: int, totalDamageDealt: int, criticalHits: int,
                           spinCount: int, currentWorldIndex: int)

  /** The condition of each achievement (Jackpot Winner is only ever set by the jackpot). */
  predicate Holds(a: AchievementId, r: Record) {
    match a
    case FirstWin => r.winCount >= 1
    case BossSlayer => r.bossesDefeated >= 1
    case DamageDealer => r.totalDamageDealt >= 500
    case CriticalMaster => r.criticalHits >= 10
    case SpinMaster => r.spinCount >= 100
    case WorldExplorer => r.currentWorldIndex >= |Worlds| - 1
    case JackpotWinner => false
  }

  /** The achievements of `ids`, in order, not in `held` whose condition holds. */
  function Unlocks(ids: seq<AchievementId>, held: set<AchievementId>, r: Record): seq<AchievementId> {
    if ids == [] then []
    else
      var a := ids[|ids| - 1];
      Unlocks(ids[..|ids| - 1], held, r) + (if a !in held && Holds(a, r) then [a] else [])
  }

  /** The achievement set and the score. */
  datatype Trophies = Trophies(achievements: set<AchievementId>, score: int)

  /** `checkAchievements`: each unlock adds the id and 100 score. */
  function Achieved(t: Trophies, r: Record): Trophies {
    var u := Unlocks(Achievements, t.achievements, r);
    Trophies(t.achievements + (set a | a in u), t.score + AchievementScore * |u|)
  }

  // ---------------------------------------------------------------------
  // Reset and progression
  // ---------------------------------------------------------------------

  /** The fields of `GameState`; `comboHalves` is twice `comboMultiplier`. */
  datatype Stats = Stats(
    score: int,
    spinCount: int,
    winCount: int,
    bossesDefeated: int,
    currentBossIndex: int,
    currentWorldIndex: int,
    playerHealth: int,
    maxPlayerHealth: int,
    isSpinning: bool,
    gameOver: bool,
    activePowerUps: map<Effect, Active>,
    powerUpDurations: map<Effect, int>,
    comboHalves: int,
    consecutiveWins: int,
    freeSpinsRemaining: int,
    jackpotProgress: int,
    achievements: set<AchievementId>,
    totalDamageDealt: int,
    criticalHits: int,
    settings: Settings)

  /** A new `GameState`. */
  function Initial(): Stats {
    Stats(0, 0, 0, 0, 0, 0, 100, 100, false, false, map[], map[], BaseHalves, 0, 0, 0, {}, 0, 0,
          Settings(true, true, false))
  }

  /** `GameState.reset`: every field back to its starting value except achievements and settings. */
  function ResetStats(g: Stats): Stats {
    Initial().(achievements := g.achievements, settings := g.settings)
  }

  /** The world table with only the first world unlocked, as `restartGame` leaves it. */
  function Relocked(ws: seq<World>): (r: seq<World>)
    ensures |r| == |ws|
  {
    seq(|ws|, i requires 0 <= i < |ws| => ws[i].(unlocked := i == 0))
  }

  /** The world table keeps its names and boss lists; only the `unlocked` flags change. */
  predicate WorldsShaped(ws: seq<World>) {
    |ws| == |Worlds| && forall i :: 0 <= i < |ws| ==> ws[i] == Worlds[i].(unlocked := ws[i].unlocked)
  }

  /** Position of `x` in `xs`, or -1 (`indexOf`). */
  function IndexOf(xs: seq<nat>, x: int): (i: int)
    ensures -1 <= i < |xs|
    ensures 0 <= i ==> xs[i] == x && x !in xs[..i]
    ensures i == -1 ==> x !in xs
  {
    if xs == [] then -1
    else if xs[0] == x then 0
    else var j := IndexOf(xs[1..], x); if j == -1 then -1 else j + 1
  }

  /** The fields `nextBoss` changes when it does not restart. */
  datatype Progress = Progress(bossIndex: int, worldIndex: int, playerHealth: int, maxPlayerHealth: int,
                               boss: Boss, world: World, worlds: seq<World>)

  /** The healing that closes `nextBoss`: up to 50, capped, then 10 more on a maximum raised by 10. */
  function Recovered(p: Progress): Progress {
    p.(playerHealth := Min(p.maxPlayerHealth, p.playerHealth + 50) + 10, maxPlayerHealth := p.maxPlayerHealth + 10)
  }

  /**
   * `nextBoss`: the next boss of this world, else the first boss of the next
   * world (unlocking it), then the healing; `None` when every world is done
   * and the game restarts instead.
   */
  function Advanced(p: Progress): Option<Progress>
    requires WorldsShaped(p.worlds) && 0 <= p.worldIndex < |Worlds|
  {
    var bosses := p.worlds[p.worldIndex].bosses;
    var i := IndexOf(bosses, p.bossIndex);
    if i < |bosses| - 1 then
      var b := bosses[i + 1];
      Some(Recovered(p.(bossIndex := b, boss := Bosses[b])))
    else if p.worldIndex < |Worlds| - 1 then
      var w := p.worldIndex + 1;
      var world := p.worlds[w];
      var b := world.bosses[0];
      Some(Recovered(Progress(b, w, p.playerHealth, p.maxPlayerHealth, Bosses[b], world,
                              p.worlds[w := world.(unlocked := true)])))
    else None
  }

  /** Progression that stays true: the boss is the current world's own, health within bounds. */
  predicate ProgressValid(p: Progress) {
    WorldsShaped(p.worlds) && 0 <= p.worldIndex < |Worlds| && p.bossIndex == p.worldIndex &&
    p.boss == Bosses[p.worldIndex].(health := p.boss.health) && 0 <= p.boss.health <= p.boss.maxHealth &&
    0 <= p.playerHealth <= p.maxPlayerHealth
  }

  // ---------------------------------------------------------------------
  // The classes
  // ---------------------------------------------------------------------

  class GameState {
    var score: int
    var spinCount: int
    var winCount: int
    var bossesDefeated: int
    var currentBossIndex: int
    var currentWorldIndex: int
    var playerHealth: int
    var maxPlayerHealth: int
    var isSpinning: bool
    var gameOver: bool
    var activePowerUps: map<Effect, Active>
    var powerUpDurations: map<Effect, int>
    var comboHalves: int
    var consecutiveWins: int
    var freeSpinsRemaining: int
    var jackpotProgress: int
    var achievements: set<AchievementId>
    var totalDamageDealt: int
    var criticalHits: int
    var settings: Settings

    function Snapshot(): Stats
      reads this
    {
      Stats(score, spinCount, winCount, bossesDefeated, currentBossIndex, currentWorldIndex,
            playerHealth, maxPlayerHealth, isSpinning, gameOver, activePowerUps, powerUpDurations,
            comboHalves, consecutiveWins, freeSpinsRemaining, jackpotProgress, achievements,
            totalDamageDealt, criticalHits, settings)
    }

    function PowerUpFields(): PowerUps
      reads this
    {
      PowerUps(activePowerUps, powerUpDurations)
    }

    constructor()
      ensures Snapshot() == Initial()
    {
      score, spinCount, winCount, bossesDefeated := 0, 0, 0, 0;
      currentBossIndex, currentWorldIndex := 0, 0;
      playerHealth, maxPlayerHealth := 100, 100;
      isSpinning, gameOver := false, false;
      activePowerUps, powerUpDurations := map[], map[];
      comboHalves, consecutiveWins, freeSpinsRemaining, jackpotProgress := BaseHalves, 0, 0, 0;
      achievements := {};
      totalDamageDealt, criticalHits := 0, 0;
      settings := Settings(true, true, false);
    }

    /** `reset`: progress first, then the power-up, bonus and damage counters. */
    method Reset()
      modifies this
      ensures Snapshot() == ResetStats(old(Snapshot()))
    {
      ResetProgress();
      ResetCounters();
    }

    /** The first half of `reset`: score, counts, progression, health and flags. */
    method ResetProgress()
      modifies this`score, this`spinCount, this`winCount, this`bossesDefeated, this`currentBossIndex,
               this`currentWorldIndex, this`playerHealth, this`maxPlayerHealth, this`isSpinning, this`gameOver
      ensures score == 0 && spinCount == 0 && winCount == 0 && bossesDefeated == 0
      ensures currentBossIndex == 0 && currentWorldIndex == 0 && playerHealth == 100 && maxPlayerHealth == 100
      ensures !isSpinning && !gameOver
    {
      score, spinCount, winCount, bossesDefeated := 0, 0, 0, 0;
      currentBossIndex, currentWorldIndex := 0, 0;
      playerHealth, maxPlayerHealth := 100, 100;
      isSpinning, gameOver := false, false;
    }

    /** The second half of `reset`: both power-up maps cleared, bonus and damage counters zeroed. */
    method ResetCounters()
      modifies this`activePowerUps, this`powerUpDurations, this`comboHalves, this`consecutiveWins,
               this`freeSpinsRemaining, this`jackpotProgress, this`totalDamageDealt, this`criticalHits
      ensures activePowerUps == map[] && powerUpDurations == map[]
      ensures comboHalves == BaseHalves && consecutiveWins == 0 && freeSpinsRemaining == 0 && jackpotProgress == 0
      ensures totalDamageDealt == 0 && criticalHits == 0
    {
      activePowerUps, powerUpDurations := map[], map[];
      comboHalves, consecutiveWins, freeSpinsRemaining, jackpotProgress := BaseHalves, 0, 0, 0;
      totalDamageDealt, criticalHits := 0, 0;
    }

    /** Set the boss and world indices (`nextBoss`, `restartGame`). */
    method MoveTo(world: int, boss: int)
      modifies this`currentWorldIndex, this`currentBossIndex
      ensures currentWorldIndex == world && currentBossIndex == boss
    {
      currentWorldIndex := world;
      currentBossIndex := boss;
    }

    /** `unlockAchievement`: record the id and add 100 score. */
    method UnlockAchievement(a: AchievementId)
      modifies this`achievements, this`score
      ensures achievements == old(achievements) + {a} && score == old(score) + AchievementScore
    {
      achievements := achievements + {a};
      score := score + AchievementScore;
    }

    /** The opening of `handleWin`: one more win and one more in the streak. */
    method CountWin()
      modifies this`winCount, this`consecutiveWins
      ensures winCount == old(winCount) + 1 && consecutiveWins == old(consecutiveWins) + 1
    {
      winCount := winCount + 1;
      consecutiveWins := consecutiveWins + 1;
    }

    /** Double Damage doubles `damage` and is used up, from both maps. */
    method SpendDoubleDamage(damage: int) returns (d: int)
      modifies this`activePowerUps, this`powerUpDurations
      ensures old(DoubleDamage in activePowerUps) ==>
        d == damage * 2 && PowerUpFields() == Remove(old(PowerUpFields()), DoubleDamage)
      ensures old(DoubleDamage !in activePowerUps) ==> d == damage && PowerUpFields() == old(PowerUpFields())
    {
      d := damage;
      if DoubleDamage in activePowerUps {
        d := d * 2;
        activePowerUps := activePowerUps - {DoubleDamage};
        powerUpDurations := powerUpDurations - {DoubleDamage};
      }
    }

    /** A critical hit deals 1.5 times `damage`, floored, and is counted. */
    method Critical(damage: int, isCritical: bool) returns (d: int)
      modifies this`criticalHits
      ensures d == (if isCritical then (damage * 3) / 2 else damage)
      ensures criticalHits == (if isCritical then old(criticalHits) + 1 else old(criticalHits))
    {
      d := damage;
      if isCritical {
        d := (d * 3) / 2;
        criticalHits := criticalHits + 1;
      }
    }

    /** Every third win in a row raises the multiplier by 0.5 while it is below 5. */
    method GrowCombo()
      modifies this`comboHalves
      ensures comboHalves == (if consecutiveWins % 3 == 0 && old(comboHalves) < CapHalves
                              then old(comboHalves) + 1 else old(comboHalves))
    {
      if consecutiveWins % 3 == 0 && comboHalves < CapHalves {
        comboHalves := comboHalves + 1;
      }
    }

    /** Score ten times the damage times the multiplier, and add the damage to the total. */
    method Credit(damage: int)
      modifies this`score, this`totalDamageDealt
      ensures score == old(score) + damage * 5 * comboHalves
      ensures totalDamageDealt == old(totalDamageDealt) + damage
    {
      // floor(damage * 10 * multiplier) with the multiplier in halves
      var scoreGain := damage * 5 * comboHalves;
      score := score + scoreGain;
      totalDamageDealt := totalDamageDealt + damage;
    }
  }

  class SlotMachineRPG {
    const gameState: GameState
    var currentBoss: Boss
    var currentWorld: World
    /** The module-level `WORLDS` table, whose `unlocked` flags the game rewrites. */
    var worlds: seq<World>

    function WinFields(): WinLedger
      reads this, gameState
    {
      var g := gameState;
      WinLedger(g.winCount, g.consecutiveWins, g.PowerUpFields(), g.criticalHits, g.comboHalves, g.score,
                g.totalDamageDealt, g.bossesDefeated, g.freeSpinsRemaining, currentBoss)
    }

    function LossFields(): LossLedger
      reads gameState
    {
      var g := gameState;
      LossLedger(g.consecutiveWins, g.comboHalves, g.PowerUpFields(), g.playerHealth, g.gameOver)
    }

    function BoostFields(): Boosts
      reads gameState
    {
      Boosts(gameState.PowerUpFields(), gameState.playerHealth, gameState.freeSpinsRemaining, gameState.comboHalves)
    }

    function MeterFields(): Meter
      reads gameState
    {
      Meter(gameState.jackpotProgress, gameState.score, gameState.achievements, gameState.freeSpinsRemaining)
    }

    function RecordFields(): Record
      reads gameState
    {
      var g := gameState;
      Record(g.winCount, g.bossesDefeated, g.totalDamageDealt, g.criticalHits, g.spinCount, g.currentWorldIndex)
    }

    function ProgressFields(): Progress
      reads this, gameState
    {
      Progress(gameState.currentBossIndex, gameState.currentWorldIndex, gameState.playerHealth,
               gameState.maxPlayerHealth, currentBoss, currentWorld, worlds)
    }

    /** The constructor, without `loadGameProgress` and the DOM set-up. */
    constructor()
      ensures gameState.Snapshot() == Initial()
      ensures currentBoss == Bosses[0] && currentWorld == Worlds[0] && worlds == Worlds
    {
      gameState := new GameState();
      currentBoss := Bosses[0];
      currentWorld := Worlds[0];
      worlds := Worlds;
    }

    /** `checkWinCondition`. */
    method CheckWinCondition(a: Symbols.Symbol, b: Symbols.Symbol, c: Symbols.Symbol) returns (r: WinResult)
      ensures r == TripleMatch(a, b, c)
    {
      if a.name == b.name && b.name == c.name {
        return Win(a, a.damage);
      }
      return NoWin;
    }

    /** `defeatBoss`: the boss's maximum health times five in score, and two free spins. */
    method DefeatBoss()
      modifies gameState`bossesDefeated, gameState`score, gameState`freeSpinsRemaining
      ensures gameState.bossesDefeated == old(gameState.bossesDefeated) + 1
      ensures gameState.score == old(gameState.score) + currentBoss.maxHealth * 5
      ensures gameState.freeSpinsRemaining == old(gameState.freeSpinsRemaining) + 2
    {
      gameState.bossesDefeated := gameState.bossesDefeated + 1;
      var bonusScore := currentBoss.maxHealth * 5;
      gameState.score := gameState.score + bonusScore;
      gameState.freeSpinsRemaining := gameState.freeSpinsRemaining + 2;
    }

    /** `handleWin`; `critRoll` is the `Math.random()` of the critical-hit roll. */
    method HandleWin(result: WinResult, critRoll: real)
      requires result.Win?
      modifies this`currentBoss, gameState`winCount, gameState`consecutiveWins, gameState`activePowerUps,
               gameState`powerUpDurations, gameState`criticalHits, gameState`comboHalves, gameState`score,
               gameState`totalDamageDealt, gameState`bossesDefeated, gameState`freeSpinsRemaining
      ensures WinFields() == AfterWin(old(WinFields()), result.damage, critRoll < CriticalChance)
    {
      Strike(result.damage, critRoll < CriticalChance);
      if currentBoss.health <= 0 {
        DefeatBoss();
      }
    }

    /** The hit of `handleWin`: damage, streak, multiplier, score and the boss's health. */
    method Strike(damage: int, isCritical: bool)
      modifies this`currentBoss, gameState`winCount, gameState`consecutiveWins, gameState`activePowerUps,
               gameState`powerUpDurations, gameState`criticalHits, gameState`comboHalves, gameState`score,
               gameState`totalDamageDealt
      ensures WinFields() == Struck(old(WinFields()), damage, isCritical)
    {
      gameState.CountWin();
      var finalDamage := gameState.SpendDoubleDamage(damage);
      finalDamage := (finalDamage * gameState.comboHalves) / 2;
      finalDamage := gameState.Critical(finalDamage, isCritical);
      gameState.GrowCombo();
      gameState.Credit(finalDamage);
      currentBoss := currentBoss.(health := Max(0, currentBoss.health - finalDamage));
    }

    /** `handleLoss`; `critRoll` is the `Math.random()` of the boss's critical roll. */
    method HandleLoss(critRoll: real)
      modifies gameState`consecutiveWins, gameState`comboHalves, gameState`activePowerUps,
               gameState`powerUpDurations, gameState`playerHealth, gameState`gameOver
      ensures LossFields() == AfterLoss(old(LossFields()), currentBoss, critRoll < currentBoss.criticalChance)
    {
      gameState.consecutiveWins := 0;
      gameState.comboHalves := BaseHalves;
      if Shield in gameState.activePowerUps {
        var shieldBlocks := Numeric(gameState.activePowerUps[Shield]);
        if shieldBlocks > 0 {
          gameState.activePowerUps := gameState.activePowerUps[Shield := Count(shieldBlocks - 1)];
          if shieldBlocks - 1 <= 0 {
            gameState.activePowerUps := gameState.activePowerUps - {Shield};
            gameState.powerUpDurations := gameState.powerUpDurations - {Shield};
          }
          return;
        }
      }
      var damage := currentBoss.attackDamage;
      if critRoll < currentBoss.criticalChance {
        damage := (damage * 3) / 2;
      }
      gameState.playerHealth := Max(0, gameState.playerHealth - damage);
      if gameState.playerHealth <= 0 {
        gameState.gameOver := true;
      }
    }

    /** `activatePowerUp`. */
    method ActivatePowerUp(key: string)
      modifies gameState`activePowerUps, gameState`powerUpDurations, gameState`playerHealth,
               gameState`freeSpinsRemaining, gameState`comboHalves
      ensures BoostFields() == Activated(old(BoostFields()), gameState.maxPlayerHealth, key)
    {
      var found := PowerUpFor(key);
      if found.None? {
        return;
      }
      var powerUp := found.value;
      match powerUp.effect {
        case DoubleDamage =>
          gameState.activePowerUps := gameState.activePowerUps[DoubleDamage := Flag];
          gameState.powerUpDurations := gameState.powerUpDurations[DoubleDamage := powerUp.duration];
        case Heal =>
          gameState.playerHealth := Min(gameState.maxPlayerHealth, gameState.playerHealth + HealAmount);
        case Shield =>
          gameState.activePowerUps := gameState.activePowerUps[Shield := Count(2)];
          gameState.powerUpDurations := gameState.powerUpDurations[Shield := powerUp.duration];
        case FreeSpins =>
          gameState.freeSpinsRemaining := gameState.freeSpinsRemaining + 3;
        case ComboBoost =>
          gameState.comboHalves := gameState.comboHalves + 2;
          gameState.powerUpDurations := gameState.powerUpDurations[ComboBoost := powerUp.duration];
      }
    }

    /** `updatePowerUpDurations`: one pass over the duration entries, in any order. */
    method UpdatePowerUpDurations()
      modifies gameState`activePowerUps, gameState`powerUpDurations
      ensures gameState.PowerUpFields() == Ticked(old(gameState.PowerUpFields()))
    {
      ghost var d0 := gameState.powerUpDurations;
      ghost var a0 := gameState.activePowerUps;
      var pending := gameState.powerUpDurations.Keys;
      while pending != {}
        invariant pending <= d0.Keys
        invariant gameState.powerUpDurations ==
          map k | k in d0 && (k in pending || d0[k] > 0) :: if k in pending then d0[k] else d0[k] - 1
        invariant gameState.activePowerUps == map k | k in a0 && !(k !in pending && Expires(d0, k)) :: a0[k]
        decreases pending
      {
        var k :| k in pending;
        var duration := gameState.powerUpDurations[k];
        if duration > 0 {
          gameState.powerUpDurations := gameState.powerUpDurations[k := duration - 1];
        } else {
          gameState.activePowerUps := gameState.activePowerUps - {k};
          gameState.powerUpDurations := gameState.powerUpDurations - {k};
        }
        pending := pending - {k};
      }
    }

    /** `triggerJackpot`. */
    method TriggerJackpot()
      modifies gameState`jackpotProgress, gameState`score, gameState`achievements, gameState`freeSpinsRemaining
      ensures MeterFields() == JackpotPaid(old(MeterFields()), gameState.currentWorldIndex)
    {
      gameState.jackpotProgress := 0;
      var jackpotBonus := 1000 + gameState.currentWorldIndex * 500;
      gameState.score := gameState.score + jackpotBonus;
      gameState.achievements := gameState.achievements + {JackpotWinner};
      gameState.freeSpinsRemaining := gameState.freeSpinsRemaining + 5;
    }

    /** `updateJackpotProgress`. */
    method UpdateJackpotProgress(result: WinResult)
      modifies gameState`jackpotProgress, gameState`score, gameState`achievements, gameState`freeSpinsRemaining
      ensures MeterFields() == JackpotMetered(old(MeterFields()), gameState.currentWorldIndex, result)
    {
      if result.Win? {
        var progressIncrease := Symbols.JackpotIncrement(result.symbol);
        gameState.jackpotProgress := gameState.jackpotProgress + progressIncrease;
        if result.symbol.name == Symbols.Crystal {
          TriggerJackpot();
          return;
        }
        if gameState.jackpotProgress >= 100 {
          TriggerJackpot();
        }
      }
    }

    /** `restartGame`: reset, first boss and world, and only the first world unlocked. */
    method RestartGame()
      requires |worlds| > 0
      modifies this`currentBoss, this`currentWorld, this`worlds, gameState
      ensures gameState.Snapshot() == ResetStats(old(gameState.Snapshot()))
      ensures currentBoss == Bosses[0] && currentWorld == old(worlds[0]) && worlds == Relocked(old(worlds))
    {
      gameState.Reset();
      gameState.MoveTo(0, 0);
      currentBoss := Bosses[0];
      currentWorld := worlds[0];
      var ws := worlds;
      var i := 0;
      while i < |ws|
        invariant 0 <= i <= |ws| && |ws| == |old(worlds)|
        invariant forall j :: 0 <= j < i ==> ws[j] == old(worlds)[j].(unlocked := j == 0)
        invariant forall j :: i <= j < |ws| ==> ws[j] == old(worlds)[j]
      {
        ws := ws[i := ws[i].(unlocked := i == 0)];
        i := i + 1;
      }
      worlds := ws;
    }

    /** The healing that closes `nextBoss`. */
    method Recover()
      modifies gameState`playerHealth, gameState`maxPlayerHealth
      ensures ProgressFields() == Recovered(old(ProgressFields()))
      ensures gameState.Snapshot() == old(gameState.Snapshot()).(
        playerHealth := gameState.playerHealth, maxPlayerHealth := gameState.maxPlayerHealth)
    {
      gameState.playerHealth := Min(gameState.maxPlayerHealth, gameState.playerHealth + 50);
      gameState.maxPlayerHealth := gameState.maxPlayerHealth + 10;
      gameState.playerHealth := gameState.playerHealth + 10;
    }

    /** Face boss `b` of the current world. */
    method FaceBoss(b: nat)
      requires b < |Bosses|
      modifies this`currentBoss, gameState`currentBossIndex
      ensures currentBoss == Bosses[b] && gameState.currentBossIndex == b
      ensures gameState.Snapshot() == old(gameState.Snapshot()).(currentBossIndex := b)
    {
      gameState.currentBossIndex := b;
      currentBoss := Bosses[b];
    }

    /** Enter world `w`: it becomes current and is unlocked in the table. */
    method EnterWorld(w: nat)
      requires w < |worlds|
      modifies this`currentWorld, this`worlds, gameState`currentWorldIndex
      ensures currentWorld == old(worlds[w]) && worlds == old(worlds[w := worlds[w].(unlocked := true)])
      ensures gameState.currentWorldIndex == w
      ensures gameState.Snapshot() == old(gameState.Snapshot()).(currentWorldIndex := w)
    {
      gameState.currentWorldIndex := w;
      currentWorld := worlds[w];
      worlds := worlds[w := worlds[w].(unlocked := true)];
    }

    /** `nextBoss` when there is a next boss; the state outside the progression is left alone. */
    method Advance()
      requires WorldsShaped(worlds) && 0 <= gameState.currentWorldIndex < |Worlds|
      requires Advanced(ProgressFields()).Some?
      modifies this`currentBoss, this`currentWorld, this`worlds, gameState`currentBossIndex,
               gameState`currentWorldIndex, gameState`playerHealth, gameState`maxPlayerHealth
      ensures ProgressFields() == Advanced(old(ProgressFields())).value
      ensures gameState.Snapshot() == old(gameState.Snapshot()).(
        currentBossIndex := gameState.currentBossIndex, currentWorldIndex := gameState.currentWorldIndex,
        playerHealth := gameState.playerHealth, maxPlayerHealth := gameState.maxPlayerHealth)
    {
      var currentWorldBosses := worlds[gameState.currentWorldIndex].bosses;
      var currentBossIndexInWorld := IndexOf(currentWorldBosses, gameState.currentBossIndex);
      if currentBossIndexInWorld < |currentWorldBosses| - 1 {
        FaceBoss(currentWorldBosses[currentBossIndexInWorld + 1]);
      } else {
        EnterWorld(gameState.currentWorldIndex + 1);
        FaceBoss(currentWorld.bosses[0]);
      }
      Recover();
    }

    /** `nextBoss`: advance, or restart the game once every world is done. */
    method NextBoss()
      requires WorldsShaped(worlds) && 0 <= gameState.currentWorldIndex < |Worlds|
      modifies this`currentBoss, this`currentWorld, this`worlds, gameState
      ensures Advanced(old(ProgressFields())).Some? ==>
        ProgressFields() == Advanced(old(ProgressFields())).value &&
        gameState.Snapshot() == old(gameState.Snapshot()).(
          currentBossIndex := gameState.currentBossIndex, currentWorldIndex := gameState.currentWorldIndex,
          playerHealth := gameState.playerHealth, maxPlayerHealth := gameState.maxPlayerHealth)
      ensures Advanced(old(ProgressFields())).None? ==>
        gameState.Snapshot() == ResetStats(old(gameState.Snapshot())) &&
        currentBoss == Bosses[0] && currentWorld == old(worlds[0]) && worlds == Relocked(old(worlds))
    {
      var currentWorldBosses := worlds[gameState.currentWorldIndex].bosses;
      var currentBossIndexInWorld := IndexOf(currentWorldBosses, gameState.currentBossIndex);
      if currentBossIndexInWorld < |currentWorldBosses| - 1 || gameState.currentWorldIndex < |Worlds| - 1 {
        Advance();
      } else {
        RestartGame();
      }
    }

    /** `checkAchievements`: unlock, in table order, each achievement not yet held whose condition holds. */
    method CheckAchievements()
      modifies gameState`achievements, gameState`score
      ensures Trophies(gameState.achievements, gameState.score) ==
              Achieved(old(Trophies(gameState.achievements, gameState.score)), RecordFields())
    {
      ghost var held := gameState.achievements;
      ghost var score0 := gameState.score;
      ghost var r := RecordFields();
      var i := 0;
      while i < |Achievements|
        invariant 0 <= i <= |Achievements| && RecordFields() == r
        invariant gameState.achievements == held + (set a | a in Unlocks(Achievements[..i], held, r))
        invariant gameState.score == score0 + AchievementScore * |Unlocks(Achievements[..i], held, r)|
      {
        var a := Achievements[i];
        UnlocksStep(i, held, r);
        if a !in gameState.achievements && Holds(a, RecordFields()) {
          gameState.UnlockAchievement(a);
        }
        i := i + 1;
      }
      assert Achievements[..i] == Achievements;
    }

    /** The start of `spin`: a free spin is used whenever one remains. */
    method UseFreeSpin() returns (used: bool)
      modifies gameState`freeSpinsRemaining
      ensures used <==> old(gameState.freeSpinsRemaining) > 0
      ensures gameState.freeSpinsRemaining == FreeSpinsAfterSpin(old(gameState.freeSpinsRemaining))
    {
      used := gameState.freeSpinsRemaining > 0;
      if used {
        gameState.freeSpinsRemaining := gameState.freeSpinsRemaining - 1;
      }
    }

    /** `spin` counts every spin once its reels have stopped. */
    method CountSpin()
      modifies gameState`spinCount
      ensures gameState.spinCount == old(gameState.spinCount) + 1
      ensures RecordFields() == old(RecordFields()).(spinCount := old(RecordFields()).spinCount + 1)
    {
      gameState.spinCount := gameState.spinCount + 1;
    }
  }

  /** The free spins left after `spin` starts. */
  function FreeSpinsAfterSpin(n: int): int {
    if n > 0 then n - 1 else n
  }

  /** A spin uses exactly one free spin when any remain, so the count never goes negative. */
  lemma FreeSpinsAfterSpinSound(n: int)
    requires 0 <= n
    ensures 0 <= FreeSpinsAfterSpin(n) <= n
    ensures FreeSpinsAfterSpin(n) == n - 1 <==> n > 0
    ensures FreeSpinsAfterSpin(n) == n <==> n == 0
  {
  }

  /** The free spins left after `k` spins started with `n`. */
  function FreeSpinsAfterSpins(n: int, k: nat): int {
    if k == 0 then n else FreeSpinsAfterSpin(FreeSpinsAfterSpins(n, k - 1))
  }

  /** `k` spins use up `min(n, k)` of `n` free spins. */
  lemma {:induction false} FreeSpinsAfterSpinsIsMin(n: nat, k: nat)
    ensures FreeSpinsAfterSpins(n, k) == if k <= n then n - k else 0
  {
    if k > 0 {
      FreeSpinsAfterSpinsIsMin(n, k - 1);
    }
  }

  // ---------------------------------------------------------------------
  // Lemmas
  // ---------------------------------------------------------------------

  /** Every unlocked id comes from the list, was not held, and its condition holds. */
  lemma {:induction false} UnlocksWithin(ids: seq<AchievementId>, held: set<AchievementId>, r: Record)
    ensures forall a :: a in Unlocks(ids, held, r) ==> a in ids && a !in held && Holds(a, r)
  {
    if ids != [] {
      UnlocksWithin(ids[..|ids| - 1], held, r);
    }
  }

  /** One more table entry: it is appended when new and met, and it was not unlocked before. */
  lemma UnlocksStep(i: int, held: set<AchievementId>, r: Record)
    requires 0 <= i < |Achievements|
    ensures Achievements[i] !in Unlocks(Achievements[..i], held, r)
    ensures Unlocks(Achievements[..i + 1], held, r) == Unlocks(Achievements[..i], held, r) +
      (if Achievements[i] !in held && Holds(Achievements[i], r) then [Achievements[i]] else [])
  {
    UnlocksWithin(Achievements[..i], held, r);
    assert Achievements[..i + 1][..i] == Achievements[..i];
  }

  /**
   * The damage of a win lies between the multiplier's share of the base
   * damage and one and a half times twice that share, and a critical hit
   * never deals less.
   */
  lemma DamageDealtBounds(base: int, doubled: bool, halves: int, critical: bool)
    requires 0 <= base && 0 <= halves
    ensures (base * halves) / 2 <= DamageDealt(base, doubled, halves, critical)
    ensures 2 * DamageDealt(base, doubled, halves, critical) <= 3 * base * halves
    ensures DamageDealt(base, doubled, halves, false) <= DamageDealt(base, doubled, halves, true)
  {
    var x := base * halves;
    assert 0 <= x;
    var d := if doubled then base * 2 else base;
    assert d * halves == if doubled then 2 * x else x;
    var scaled := (d * halves) / 2;
    assert x / 2 <= scaled <= x;
    assert scaled <= (scaled * 3) / 2;
    assert 2 * ((scaled * 3) / 2) <= 3 * scaled;
  }

  /**
   * After `k` wins in a row the streak is `k` and the multiplier is
   * 1 + 0.5 per three wins, capped at 5 (reached at the 24th win).
   */
  lemma {:induction false} StreakGrowth(k: nat)
    ensures Streak(k) == (k, Min(CapHalves, BaseHalves + k / 3))
    ensures Streak(k).1 == CapHalves <==> k >= 24
  {
    if k > 0 {
      StreakGrowth(k - 1);
      assert k / 3 == (k - 1) / 3 + (if k % 3 == 0 then 1 else 0);
    }
  }

  /**
   * `handleWin`: the win and the streak are counted, Double Damage is
   * consumed, the multiplier never falls and grows past 5 only if it was
   * already there, the boss loses exactly the damage credited to the total
   * (floored at 0), and the boss counts as defeated, with its two free
   * spins, exactly when its health reaches 0.
   */
  lemma AfterWinSound(w: WinLedger, damage: int, critical: bool)
    requires PowerUpsValid(w.powerUps) && 0 <= damage && 0 <= w.comboHalves && 0 <= w.boss.health <= w.boss.maxHealth
    ensures var r := AfterWin(w, damage, critical);
      r.winCount == w.winCount + 1 && r.consecutiveWins == w.consecutiveWins + 1 &&
      r.criticalHits == w.criticalHits + (if critical then 1 else 0) &&
      DoubleDamage !in r.powerUps.active && PowerUpsValid(r.powerUps) &&
      (forall k :: k != DoubleDamage ==> (k in r.powerUps.active <==> k in w.powerUps.active)) &&
      w.comboHalves <= r.comboHalves <= Max(CapHalves, w.comboHalves) &&
      (w.comboHalves * damage) / 2 <= r.totalDamageDealt - w.totalDamageDealt &&
      r.boss.health == Max(0, w.boss.health - (r.totalDamageDealt - w.totalDamageDealt)) &&
      r.boss.maxHealth == w.boss.maxHealth &&
      (r.bossesDefeated == w.bossesDefeated + 1 <==> r.boss.health == 0) &&
      (r.bossesDefeated == w.bossesDefeated <==> r.boss.health > 0) &&
      r.freeSpinsRemaining == w.freeSpinsRemaining + (if r.boss.health == 0 then 2 else 0) &&
      r.score >= w.score
  {
    var doubled := DoubleDamage in w.powerUps.active;
    DamageDealtBounds(damage, doubled, w.comboHalves, critical);
    var final := DamageDealt(damage, doubled, w.comboHalves, critical);
    var w1 := Struck(w, damage, critical);
    assert w1.totalDamageDealt - w.totalDamageDealt == final;
    assert 0 <= final * 5 * w1.comboHalves;
  }

  /** The boss's attack is its attack damage, or one and a half times it, floored, on a critical hit. */
  lemma BossDamageBounds(boss: Boss, critical: bool)
    ensures boss.attackDamage <= BossDamage(boss, critical) <= (3 * boss.attackDamage) / 2
    ensures !critical ==> BossDamage(boss, critical) == boss.attackDamage
  {
  }

  /**
   * `handleLoss`: the streak and multiplier reset; an active shield takes
   * the hit, losing one block and vanishing from both maps at 0; otherwise
   * the player loses the boss's attack (floored at 0) and the game is over
   * exactly when health reaches 0.
   */
  lemma AfterLossSound(l: LossLedger, boss: Boss, critical: bool)
    requires PowerUpsValid(l.powerUps) && 0 <= l.playerHealth
    ensures var r := AfterLoss(l, boss, critical);
      r.consecutiveWins == 0 && r.comboHalves == BaseHalves && PowerUpsValid(r.powerUps) &&
      0 <= r.playerHealth <= l.playerHealth &&
      (Shielded(l.powerUps) ==>
         r.playerHealth == l.playerHealth && r.gameOver == l.gameOver &&
         (Shield in r.powerUps.active <==> Numeric(l.powerUps.active[Shield]) > 1) &&
         (Shield in r.powerUps.active ==> Numeric(r.powerUps.active[Shield]) == Numeric(l.powerUps.active[Shield]) - 1) &&
         (Shield !in r.powerUps.active ==> Shield !in r.powerUps.durations)) &&
      (!Shielded(l.powerUps) ==>
         r.powerUps == l.powerUps &&
         r.playerHealth == Max(0, l.playerHealth - BossDamage(boss, critical)) &&
         (r.gameOver <==> l.gameOver || r.playerHealth == 0))
  {
  }

  /**
   * Mechanical Shield's two blocks: from a fresh shield the next two losses
   * cost no health and use it up (from both maps); the third loss hits.
   */
  lemma ShieldBlocksTwoAttacks(l: LossLedger, boss: Boss, c1: bool, c2: bool, c3: bool)
    requires Shield in l.powerUps.active && l.powerUps.active[Shield] == Count(2)
    ensures var l2 := AfterLoss(AfterLoss(l, boss, c1), boss, c2);
      l2.playerHealth == l.playerHealth &&
      Shield !in l2.powerUps.active && Shield !in l2.powerUps.durations &&
      AfterLoss(l2, boss, c3).playerHealth == Max(0, l.playerHealth - BossDamage(boss, c3))
  {
    var l1 := AfterLoss(l, boss, c1);
    assert l1.powerUps.active[Shield] == Count(1);
    assert Shielded(l1.powerUps);
  }

  /**
   * `activatePowerUp`: an unknown key changes nothing; each known key has
   * its table effect; healing never exceeds the maximum; the maps stay valid.
   */
  lemma ActivatedSound(b: Boosts, maxHealth: int, key: string)
    ensures var r := Activated(b, maxHealth, key);
      (PowerUpFor(key).None? ==> r == b) &&
      (PowerUpsValid(b.powerUps) ==> PowerUpsValid(r.powerUps)) &&
      (0 <= b.playerHealth <= maxHealth ==> 0 <= r.playerHealth <= maxHealth) &&
      (key == "DOUBLE_DAMAGE" ==>
         r.powerUps.active == b.powerUps.active[DoubleDamage := Flag] && r.powerUps.durations[DoubleDamage] == 3) &&
      (key == "HEALING" ==>
         r.playerHealth == Min(maxHealth, b.playerHealth + HealAmount) && r.powerUps == b.powerUps) &&
      (key == "SHIELD" ==>
         r.powerUps.active == b.powerUps.active[Shield := Count(2)] && r.powerUps.durations[Shield] == 2) &&
      (key == "MULTI_SPIN" ==> r == b.(freeSpinsRemaining := b.freeSpinsRemaining + 3)) &&
      (key == "COMBO_BOOST" ==>
         r.comboHalves == b.comboHalves + 2 && r.powerUps.active == b.powerUps.active &&
         r.powerUps.durations[ComboBoost] == 5)
  {
  }

  /**
   * `updatePowerUpDurations`: positive durations count down by one and
   * keep their power-up; a duration of 0 removes the power-up from both
   * maps; nothing is added; validity is kept.
   */
  lemma TickedSound(p: PowerUps)
    requires PowerUpsValid(p)
    ensures var q := Ticked(p);
      PowerUpsValid(q) && q.active.Keys <= p.active.Keys && q.durations.Keys <= p.durations.Keys &&
      (forall k :: k in p.durations && p.durations[k] > 0 ==>
         k in q.durations && q.durations[k] == p.durations[k] - 1) &&
      (forall k :: k in p.active && p.durations[k] > 0 ==> k in q.active && q.active[k] == p.active[k]) &&
      (forall k :: k in p.durations && p.durations[k] == 0 ==> k !in q.durations && k !in q.active)
  {
  }

  /**
   * A power-up with duration `d` is still there, unchanged, with duration
   * `d - n`, after `n <= d` updates.
   */
  lemma {:induction false} LastsDuration(p: PowerUps, k: Effect, n: nat)
    requires k in p.durations && n <= p.durations[k]
    ensures var q := Updates(p, n);
      k in q.durations && q.durations[k] == p.durations[k] - n &&
      (k in p.active ==> k in q.active && q.active[k] == p.active[k])
  {
    if n > 0 {
      LastsDuration(p, k, n - 1);
    }
  }

  /** ... and is gone from both maps after `d + 1` updates. */
  lemma ExpiresAfterDuration(p: PowerUps, k: Effect)
    requires k in p.durations && 0 <= p.durations[k]
    ensures var q := Updates(p, p.durations[k] + 1);
      k !in q.durations && k !in q.active
  {
    LastsDuration(p, k, p.durations[k]);
  }

  /**
   * `updateJackpotProgress` on the 3-reel table keeps the meter in
   * [0, 100): a win pays exactly when it is a Crystal triple or fills the
   * meter to 100 (so always from 92 up); a payout empties the meter and adds
   * 1000 + 500 per world, the Jackpot Winner achievement and five free spins;
   * otherwise only the meter moves.
   */
  lemma JackpotMeteredSound(m: Meter, world: int, result: WinResult)
    requires 0 <= m.progress < 100
    requires result.Win? ==> result.symbol in Symbols.ReelSymbols
    ensures var r := JackpotMetered(m, world, result);
      0 <= r.progress < 100 &&
      (result.NoWin? ==> r == m) &&
      (result.Win? ==>
         var paid := result.symbol.name == Symbols.Crystal || m.progress + Symbols.JackpotIncrement(result.symbol) >= 100;
         (paid ==> r.progress == 0 && r.score == m.score + 1000 + 500 * world &&
                   r.achievements == m.achievements + {JackpotWinner} &&
                   r.freeSpinsRemaining == m.freeSpinsRemaining + 5) &&
         (!paid ==> r == m.(progress := m.progress + Symbols.JackpotIncrement(result.symbol))) &&
         (m.progress >= 92 ==> paid))
  {
    if result.Win? {
      Symbols.ReelSymbolIncrements(result.symbol);
    }
  }

  /** Every id of the table, in order, not held and met, is unlocked. */
  lemma {:induction false} UnlocksComplete(ids: seq<AchievementId>, held: set<AchievementId>, r: Record)
    ensures forall a :: a in ids && a !in held && Holds(a, r) ==> a in Unlocks(ids, held, r)
  {
    if ids != [] {
      UnlocksComplete(ids[..|ids| - 1], held, r);
      forall a | a in ids && a !in held && Holds(a, r)
        ensures a in Unlocks(ids, held, r)
      {
        if a != ids[|ids| - 1] {
          assert a in ids[..|ids| - 1];
        }
      }
    }
  }

  /** A table prefix unlocks no id twice. */
  lemma {:induction false} UnlocksCount(i: nat, held: set<AchievementId>, r: Record)
    requires i <= |Achievements|
    ensures |set a | a in Unlocks(Achievements[..i], held, r)| == |Unlocks(Achievements[..i], held, r)|
  {
    if i > 0 {
      UnlocksCount(i - 1, held, r);
      UnlocksStep(i - 1, held, r);
      var u := Unlocks(Achievements[..i - 1], held, r);
      var a := Achievements[i - 1];
      if a !in held && Holds(a, r) {
        assert (set x | x in u + [a]) == (set x | x in u) + {a};
      } else {
        assert (set x | x in u + []) == (set x | x in u);
      }
    }
  }

  /**
   * `checkAchievements`: the held set grows by exactly the achievements
   * whose condition holds, and the score by 100 for each one new.
   */
  lemma AchievedSound(t: Trophies, r: Record)
    ensures var n := Achieved(t, r);
      n.achievements == t.achievements + (set a | a in Achievements && Holds(a, r)) &&
      n.score == t.score + AchievementScore * |n.achievements - t.achievements|
  {
    var u := Unlocks(Achievements, t.achievements, r);
    UnlocksWithin(Achievements, t.achievements, r);
    UnlocksComplete(Achievements, t.achievements, r);
    UnlocksCount(|Achievements|, t.achievements, r);
    assert Achievements[..|Achievements|] == Achievements;
    var n := Achieved(t, r);
    assert n.achievements - t.achievements == (set a | a in u);
  }

  /** Nothing is unlocked when every met id is already held. */
  lemma {:induction false} UnlocksNone(ids: seq<AchievementId>, held: set<AchievementId>, r: Record)
    requires forall a :: a in ids && Holds(a, r) ==> a in held
    ensures Unlocks(ids, held, r) == []
  {
    if ids != [] {
      UnlocksNone(ids[..|ids| - 1], held, r);
    }
  }

  /** Checking twice unlocks nothing more. */
  lemma AchievedIdempotent(t: Trophies, r: Record)
    ensures Achieved(Achieved(t, r), r) == Achieved(t, r)
  {
    var n := Achieved(t, r);
    AchievedSound(t, r);
    UnlocksNone(Achievements, n.achievements, r);
  }

  /**
   * `nextBoss` from a consistent position: it advances exactly while a
   * world is left, into the next world and its one boss at full health,
   * unlocking that world and no other, and healing up to 50 (capped) plus
   * 10 on a maximum raised by 10; the new position is consistent again.
   */
  lemma AdvancedSound(p: Progress)
    requires ProgressValid(p)
    ensures Advanced(p).Some? <==> p.worldIndex < |Worlds| - 1
    ensures Advanced(p).Some? ==>
      var q := Advanced(p).value;
      q.worldIndex == p.worldIndex + 1 && q.boss == Bosses[q.worldIndex] && q.world == p.worlds[q.worldIndex] &&
      q.worlds[q.worldIndex].unlocked &&
      (forall i :: 0 <= i < |q.worlds| && i != q.worldIndex ==> q.worlds[i] == p.worlds[i]) &&
      q.maxPlayerHealth == p.maxPlayerHealth + 10 &&
      q.playerHealth == Min(p.maxPlayerHealth, p.playerHealth + 50) + 10 &&
      ProgressValid(q)
  {
    var w := p.worldIndex;
    assert p.worlds[w].bosses == Worlds[w].bosses;
    assert Worlds[w].bosses == [w];
    if w < |Worlds| - 1 {
      assert p.worlds[w + 1].bosses == Worlds[w + 1].bosses == [w + 1];
    }
  }

  /** `reset` forgets everything but the achievements and settings, and is idempotent. */
  lemma ResetForgets(g: Stats, h: Stats)
    ensures ResetStats(g) == ResetStats(h) <==> g.achievements == h.achievements && g.settings == h.settings
    ensures ResetStats(ResetStats(g)) == ResetStats(g)
  {
  }

  /** On the 3-reel table, whose names are distinct, a triple match means three equal symbols. */
  lemma TripleMatchOnReels(a: Symbols.Symbol, b: Symbols.Symbol, c: Symbols.Symbol)
    requires a in Symbols.ReelSymbols && b in Symbols.ReelSymbols && c in Symbols.ReelSymbols
    ensures TripleMatch(a, b, c).Win? <==> a == b && b == c
    ensures TripleMatch(a, b, c).Win? ==> TripleMatch(a, b, c).damage == a.damage
  {
  }

  /**
   * `getRandomSymbol` on the 3-reel table: `u` in [0, 1) draws symbol `i`
   * exactly when it falls in the interval of length `rarity` that follows
   * the rarities of the symbols before it, so the fallback is never taken.
   */
  lemma ReelDrawFollowsRarity(u: real, i: nat)
    requires 0.0 <= u < 1.0 && i < |Symbols.ReelSymbols|
    ensures Symbols.SelectFrom(Symbols.ReelSymbols, u, 0) == i <==>
      (i == 0 || Symbols.Cumulative(Symbols.ReelSymbols, i) < u) &&
      u <= Symbols.Cumulative(Symbols.ReelSymbols, i) + Symbols.ReelSymbols[i].rarity
  {
    var t := Symbols.ReelSymbols;
    Symbols.ReelSymbolsSumToOne();
    Symbols.DrawSelectsInterval(t, u, i);
    assert Symbols.Cumulative(t, i + 1) == Symbols.Cumulative(t, i) + t[i].rarity;
  }
}
