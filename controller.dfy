/**
 * The game controller of the shipped 5x5 game (`SlotMachineGame`): the
 * ledger of score, bet, free spins, player health and boss progression,
 * driven by the engine's spin results and the power-up table.
 *
 * Each state change is a function on the `Ledger` value; the class methods
 * change the fields in place and are proved to agree with those functions.
 * DOM updates, notifications, modals, animation and timer delays are not
 * modelled; the boss attack the source schedules one second after a result is
 * processed happens at the end of `ProcessSpinResult`.
 */
module Game {
  import opened Wrappers
  import opened Numbers
  import SlotEngine
  import Bonuses

  datatype Boss = Boss(name: string, maxHealth: nat, attack: nat)
  datatype World = World(name: string, boss: Boss)

  /** The three worlds, in play order. */
  const Worlds: seq<World> := [
    World("Mechanical Foundry", Boss("Mechanical Spider", 100, 15)),
    World("Steam Gardens", Boss("Steam Golem", 150, 20)),
    World("Sky Fortress", Boss("Airship Captain", 200, 25))
  ]

  const MinBet: int := 1
  const MaxBet: int := 100
  const DefaultBet: int := 10
  /** Score per point of damage dealt. */
  const ScorePerDamage: int := 10
  const BossScore: int := 1000
  const BossFreeSpins: int := 5
  const JackpotScore: int := 5000
  const JackpotFreeSpins: int := 10
  const HealAmount: int := 30
  const MultiSpinFreeSpins: int := 3

  /** The controller's numeric fields; `bossHealth[k]` is the health of world `k`'s boss. */
  datatype Ledger = Ledger(
    playerHealth: int,
    maxHealth: int,
    score: int,
    totalSpins: int,
    totalWins: int,
    betAmount: int,
    freeSpins: int,
    currentWorld: int,
    bossHealth: seq<int>)

  function InitialLedger(): Ledger {
    Ledger(100, 100, 100, 0, 0, DefaultBet, 0, 0, [100, 150, 200])
  }

  /** `currentWorld` indexes `worlds` and every world has its boss. */
  predicate Shaped(l: Ledger) {
    |l.bossHealth| == |Worlds| && 0 <= l.currentWorld < |Worlds|
  }

  /** What the controller keeps true between events. */
  predicate LedgerValid(l: Ledger) {
    Shaped(l) &&
    (forall k :: 0 <= k < |Worlds| ==> 0 <= l.bossHealth[k] <= Worlds[k].boss.maxHealth) &&
    0 <= l.playerHealth <= l.maxHealth &&
    MinBet <= l.betAmount <= MaxBet &&
    0 <= l.score && 0 <= l.freeSpins && 0 <= l.totalSpins && 0 <= l.totalWins
  }

  function Clamp(x: int): int {
    Max(MinBet, if x <= MaxBet then x else MaxBet)
  }

  // ---------------------------------------------------------------------
  // The ledger transitions
  // ---------------------------------------------------------------------

  /** `spin` gating: refuse, or spend a free spin, or pay the bet. */
  function Charge(l: Ledger): Option<Ledger> {
    if l.score < l.betAmount && l.freeSpins == 0 then None
    else if l.freeSpins > 0 then Some(l.(freeSpins := l.freeSpins - 1, totalSpins := l.totalSpins + 1))
    else Some(l.(score := l.score - l.betAmount, totalSpins := l.totalSpins + 1))
  }

  /** `defeatBoss`: reward, then move on unless this is the last world. */
  function Defeat(l: Ledger): (r: Ledger)
    requires Shaped(l)
    ensures Shaped(r)
  {
    var l1 := l.(score := l.score + BossScore, freeSpins := l.freeSpins + BossFreeSpins);
    if l.currentWorld < |Worlds| - 1 then
      var next := l.currentWorld + 1;
      l1.(currentWorld := next, bossHealth := l.bossHealth[next := Worlds[next].boss.maxHealth])
    else l1
  }

  /** `dealDamageToBoss`. */
  function DealDamage(l: Ledger, damage: int): (r: Ledger)
    requires Shaped(l)
    ensures Shaped(r)
  {
    var w := l.currentWorld;
    var h := Max(0, l.bossHealth[w] - damage);
    var l1 := l.(bossHealth := l.bossHealth[w := h]);
    if h == 0 then Defeat(l1) else l1
  }

  /** `bossAttack`, given whether Mechanical Shield is active. */
  function Attack(l: Ledger, shielded: bool): Ledger
    requires Shaped(l)
  {
    if l.bossHealth[l.currentWorld] <= 0 || shielded then l
    else l.(playerHealth := Max(0, l.playerHealth - Worlds[l.currentWorld].boss.attack))
  }

  /** `applyPowerUpEffect`: only the instant power-ups act here. */
  function PowerUpEffect(l: Ledger, n: Bonuses.PowerUpName): Ledger {
    match n
    case SteamHealing =>
      l.(playerHealth := if l.maxHealth <= l.playerHealth + HealAmount then l.maxHealth else l.playerHealth + HealAmount)
    case MultiSpin => l.(freeSpins := l.freeSpins + MultiSpinFreeSpins)
    case _ => l
  }

  /** The effects of a list of activated power-ups, in order. */
  function PowerUpEffects(l: Ledger, ns: seq<Bonuses.PowerUpName>): (r: Ledger)
    ensures r.currentWorld == l.currentWorld && r.bossHealth == l.bossHealth
  {
    if ns == [] then l else PowerUpEffect(PowerUpEffects(l, ns[..|ns| - 1]), ns[|ns| - 1])
  }

  /** `triggerJackpot` on the ledger (the engine's meter is reset separately). */
  function Jackpot(l: Ledger): Ledger {
    l.(score := l.score + JackpotScore, freeSpins := l.freeSpins + JackpotFreeSpins)
  }

  /** The winning half of `processSpinResult`, given the damage after bonuses. */
  function Settle(l: Ledger, hasWin: bool, finalDamage: int, isJackpot: bool): (r: Ledger)
    requires Shaped(l)
    ensures Shaped(r)
  {
    if !hasWin then l
    else
      var l1 := DealDamage(l.(totalWins := l.totalWins + 1), finalDamage);
      var l2 := l1.(score := l1.score + ScorePerDamage * finalDamage);
      if isJackpot then Jackpot(l2) else l2
  }

  /** `adjustBet`. */
  function AdjustedBet(bet: int, delta: int): int {
    Clamp(bet + delta)
  }

  /** The bet field's change handler: `parseInt(value) || 10`, clamped; `None` is a value that does not parse. */
  function BetFromField(parsed: Option<int>): int {
    Clamp(if parsed.Some? && parsed.value != 0 then parsed.value else DefaultBet)
  }

  /** The add-funds handler: `parseInt(value) || 0`, added only when positive. */
  function FundsAdded(score: int, parsed: Option<int>): int {
    var amount := if parsed.Some? then parsed.value else 0;
    if amount > 0 then score + amount else score
  }

  function Names(bs: seq<Bonuses.Bonus>): (ns: seq<Bonuses.PowerUpName>)
    ensures |ns| == |bs|
  {
    seq(|bs|, k requires 0 <= k < |bs| => bs[k].name)
  }

  /** The damage `applyBonusEffects` returns for a table of active bonuses. */
  function BoostedDamage(active: seq<Bonuses.Bonus>, baseDamage: int): int {
    if Bonuses.AnyNamed(active, Bonuses.DoubleDamage) then 2 * baseDamage else baseDamage
  }

  // ---------------------------------------------------------------------
  // The class
  // ---------------------------------------------------------------------

  class SlotMachineGame {
    const slotMachine: SlotEngine.SlotMachine
    const bonusSystem: Bonuses.BonusFeatureSystem
    var playerHealth: int
    var maxHealth: int
    var score: int
    var totalSpins: int
    var totalWins: int
    var betAmount: int
    var freeSpins: int
    var currentWorld: int
    var bossHealth: seq<int>

    function State(): Ledger
      reads this
    {
      Ledger(playerHealth, maxHealth, score, totalSpins, totalWins, betAmount, freeSpins, currentWorld, bossHealth)
    }

    ghost predicate Valid()
      reads this, slotMachine, bonusSystem
    {
      bonusSystem.slotMachine == slotMachine &&
      slotMachine.Valid() && bonusSystem.Valid() && LedgerValid(State())
    }

    /** The constructor and `initializeGame`'s first `generateGrid`. */
    constructor(us: seq<real>)
      requires |us| == SlotEngine.TotalPositions
      ensures State() == InitialLedger()
      ensures slotMachine.grid == SlotEngine.DrawnGrid(us)
      ensures bonusSystem.activeBonuses == [] && bonusSystem.bonusHistory == []
      ensures Valid()
      ensures fresh(slotMachine) && fresh(bonusSystem)
    {
      var machine := new SlotEngine.SlotMachine();
      slotMachine := machine;
      bonusSystem := new Bonuses.BonusFeatureSystem(machine);
      playerHealth := 100;
      maxHealth := 100;
      score := 100;
      totalSpins := 0;
      totalWins := 0;
      betAmount := DefaultBet;
      freeSpins := 0;
      currentWorld := 0;
      bossHealth := [100, 150, 200];
      new;
      assert State() == InitialLedger();
      InitialLedgerValid();
      var g := machine.GenerateGrid(us);
    }

    /** The affordability check and payment at the start of `spin`. */
    method BeginSpin() returns (started: bool)
      modifies this
      ensures started <==> Charge(old(State())).Some?
      ensures State() == Charge(old(State())).GetOr(old(State()))
    {
      if score < betAmount && freeSpins == 0 {
        return false;
      }
      if freeSpins > 0 {
        freeSpins := freeSpins - 1;
      } else {
        score := score - betAmount;
      }
      totalSpins := totalSpins + 1;
      started := true;
    }

    /** `defeatBoss`. */
    method DefeatBoss()
      requires Shaped(State())
      modifies this
      ensures State() == Defeat(old(State()))
    {
      score := score + BossScore;
      freeSpins := freeSpins + BossFreeSpins;
      if currentWorld < |Worlds| - 1 {
        currentWorld := currentWorld + 1;
        bossHealth := bossHealth[currentWorld := Worlds[currentWorld].boss.maxHealth];
      }
    }

    /** `dealDamageToBoss`. */
    method DealDamageToBoss(damage: int)
      requires Shaped(State())
      modifies this
      ensures State() == DealDamage(old(State()), damage)
    {
      bossHealth := bossHealth[currentWorld := Max(0, bossHealth[currentWorld] - damage)];
      if bossHealth[currentWorld] == 0 {
        DefeatBoss();
      }
    }

    /** `bossAttack`: blocked by a dead boss or an active Mechanical Shield. */
    method BossAttack()
      requires Shaped(State())
      modifies this
      ensures State() == Attack(old(State()), bonusSystem.IsBonusActive(Bonuses.MechanicalShield))
    {
      if bossHealth[currentWorld] <= 0 {
        return;
      }
      if bonusSystem.IsBonusActive(Bonuses.MechanicalShield) {
        return;
      }
      playerHealth := Max(0, playerHealth - Worlds[currentWorld].boss.attack);
    }

    /** `applyPowerUpEffect`. */
    method ApplyPowerUpEffect(n: Bonuses.PowerUpName)
      modifies this
      ensures State() == PowerUpEffect(old(State()), n)
    {
      match n
      case SteamHealing =>
        playerHealth := if maxHealth <= playerHealth + HealAmount then maxHealth else playerHealth + HealAmount;
      case MultiSpin =>
        freeSpins := freeSpins + MultiSpinFreeSpins;
      case _ =>
    }

    /** `triggerJackpot`: pay out and empty the engine's meter. */
    method TriggerJackpot()
      modifies this, slotMachine`jackpotProgress
      ensures State() == Jackpot(old(State()))
      ensures slotMachine.jackpotProgress == 0
    {
      score := score + JackpotScore;
      freeSpins := freeSpins + JackpotFreeSpins;
      slotMachine.ResetJackpot();
    }

    /** `adjustBet`. */
    method AdjustBet(delta: int)
      modifies this`betAmount
      ensures betAmount == AdjustedBet(old(betAmount), delta)
    {
      betAmount := Max(1, if betAmount + delta <= MaxBet then betAmount + delta else MaxBet);
    }

    /** The bet field's change handler. */
    method SetBetFromField(parsed: Option<int>)
      modifies this`betAmount
      ensures betAmount == BetFromField(parsed)
    {
      var v := if parsed.Some? && parsed.value != 0 then parsed.value else DefaultBet;
      betAmount := Max(1, if v <= MaxBet then v else MaxBet);
    }

    /** The add-funds button handler. */
    method AddFunds(parsed: Option<int>)
      modifies this`score
      ensures score == FundsAdded(old(score), parsed)
    {
      var amount := if parsed.Some? then parsed.value else 0;
      if amount > 0 {
        score := score + amount;
      }
    }

    /** Apply each activated power-up's instant effect, in activation order. */
    method ApplyPowerUpEffects(activated: seq<Bonuses.Bonus>)
      modifies this
      ensures State() == PowerUpEffects(old(State()), Names(activated))
    {
      var i := 0;
      while i < |activated|
        invariant 0 <= i <= |activated|
        invariant State() == PowerUpEffects(old(State()), Names(activated[..i]))
      {
        assert Names(activated[..i + 1]) == Names(activated[..i]) + [activated[i].name];
        ApplyPowerUpEffect(activated[i].name);
        i := i + 1;
      }
      assert activated[..i] == activated;
    }

    /** The winning branch of `processSpinResult`. */
    method SettleWin(result: SlotEngine.SpinResult)
      requires Shaped(State()) && bonusSystem.slotMachine == slotMachine
      modifies this, slotMachine`multiplierHalves, slotMachine`jackpotProgress
      ensures State() == Settle(old(State()), result.wins != [],
                                BoostedDamage(bonusSystem.activeBonuses, result.totalDamage), result.isJackpot)
      ensures slotMachine.multiplierHalves == old(slotMachine.multiplierHalves) +
                (if result.wins != [] && Bonuses.AnyNamed(bonusSystem.activeBonuses, Bonuses.ComboBoost) then 2 else 0)
      ensures slotMachine.jackpotProgress ==
                (if result.wins != [] && result.isJackpot then 0 else old(slotMachine.jackpotProgress))
    {
      if |result.wins| > 0 {
        totalWins := totalWins + 1;
        var finalDamage := bonusSystem.ApplyBonusEffects(result.totalDamage);
        DealDamageToBoss(finalDamage);
        score := score + finalDamage * ScorePerDamage;
        if result.isJackpot {
          TriggerJackpot();
        }
      }
    }

    /** The power-up half of `processSpinResult`: roll, apply the instant effects, count down. */
    method RunPowerUps(rolls: seq<real>, ids: seq<real>, now: int)
      requires bonusSystem.Valid()
      requires |rolls| == |Bonuses.PowerUps| && |ids| == |Bonuses.PowerUps|
      modifies this, bonusSystem`activeBonuses, bonusSystem`bonusHistory
      ensures var check := Bonuses.CheckFirst(Bonuses.Table(old(bonusSystem.activeBonuses), old(bonusSystem.bonusHistory)),
                                              rolls, ids, now, |Bonuses.PowerUps|);
              bonusSystem.bonusHistory == check.0.history &&
              bonusSystem.activeBonuses == Bonuses.Update(check.0.active) &&
              State() == PowerUpEffects(old(State()), Names(check.1))
      ensures bonusSystem.Valid()
    {
      ghost var table0 := Bonuses.Table(bonusSystem.activeBonuses, bonusSystem.bonusHistory);
      var activated := bonusSystem.CheckPowerUpActivation(rolls, ids, now);
      ghost var check := Bonuses.CheckFirst(table0, rolls, ids, now, |Bonuses.PowerUps|);
      Bonuses.CheckFirstSound(table0, rolls, ids, now, |Bonuses.PowerUps|);
      ApplyPowerUpEffects(activated);
      var expired := bonusSystem.UpdateBonusDurations();
      Bonuses.UpdateSound(check.0.active);
    }

    /**
     * `processSpinResult`: on a win, score the damage after bonuses and pay any
     * jackpot; then roll for power-ups, apply the instant ones, count the
     * table down, and let a living boss strike back.
     */
    method ProcessSpinResult(result: SlotEngine.SpinResult, rolls: seq<real>, ids: seq<real>, now: int)
      requires Valid()
      requires |rolls| == |Bonuses.PowerUps| && |ids| == |Bonuses.PowerUps|
      modifies this, slotMachine`multiplierHalves, slotMachine`jackpotProgress,
               bonusSystem`activeBonuses, bonusSystem`bonusHistory
      ensures var hasWin := result.wins != [];
              var active0 := old(bonusSystem.activeBonuses);
              var check := Bonuses.CheckFirst(Bonuses.Table(active0, old(bonusSystem.bonusHistory)),
                                              rolls, ids, now, |Bonuses.PowerUps|);
              bonusSystem.bonusHistory == check.0.history &&
              bonusSystem.activeBonuses == Bonuses.Update(check.0.active) &&
              State() == Attack(PowerUpEffects(Settle(old(State()), hasWin,
                                                      BoostedDamage(active0, result.totalDamage),
                                                      result.isJackpot),
                                               Names(check.1)),
                                Bonuses.AnyNamed(bonusSystem.activeBonuses, Bonuses.MechanicalShield)) &&
              slotMachine.multiplierHalves == old(slotMachine.multiplierHalves) +
                (if hasWin && Bonuses.AnyNamed(active0, Bonuses.ComboBoost) then 2 else 0) &&
              slotMachine.jackpotProgress == (if hasWin && result.isJackpot then 0 else old(slotMachine.jackpotProgress))
      ensures 0 <= result.totalDamage ==> Valid()
    {
      ghost var l0 := State();
      ghost var active0 := bonusSystem.activeBonuses;
      ghost var check := Bonuses.CheckFirst(Bonuses.Table(active0, bonusSystem.bonusHistory),
                                            rolls, ids, now, |Bonuses.PowerUps|);
      SettleWin(result);
      RunPowerUps(rolls, ids, now);
      if bossHealth[currentWorld] > 0 {
        BossAttack();
      }
      if 0 <= result.totalDamage {
        RoundKeepsValid(l0, result.wins != [], BoostedDamage(active0, result.totalDamage), result.isJackpot,
                        Names(check.1), Bonuses.AnyNamed(bonusSystem.activeBonuses, Bonuses.MechanicalShield));
      }
    }

    /** `spin` followed by the processing of its result. */
    method Spin(us: seq<real>, rolls: seq<real>, ids: seq<real>, now: int) returns (started: bool)
      requires Valid()
      requires |us| == SlotEngine.TotalPositions
      requires |rolls| == |Bonuses.PowerUps| && |ids| == |Bonuses.PowerUps|
      modifies this, slotMachine, bonusSystem`activeBonuses, bonusSystem`bonusHistory
      ensures started <==> Charge(old(State())).Some?
      ensures !started ==> State() == old(State()) && unchanged(slotMachine, bonusSystem)
      ensures started ==>
                var e := SlotEngine.SpinState(old(slotMachine.State()), us);
                var result := SlotEngine.Snapshot(e);
                var hasWin := result.wins != [];
                var active0 := old(bonusSystem.activeBonuses);
                var check := Bonuses.CheckFirst(Bonuses.Table(active0, old(bonusSystem.bonusHistory)),
                                                rolls, ids, now, |Bonuses.PowerUps|);
                bonusSystem.bonusHistory == check.0.history &&
                bonusSystem.activeBonuses == Bonuses.Update(check.0.active) &&
                State() == Attack(PowerUpEffects(Settle(Charge(old(State())).value, hasWin,
                                                        BoostedDamage(active0, result.totalDamage),
                                                        result.isJackpot),
                                                 Names(check.1)),
                                  Bonuses.AnyNamed(bonusSystem.activeBonuses, Bonuses.MechanicalShield)) &&
                slotMachine.State() ==
                  e.(multiplierHalves := e.multiplierHalves +
                                         (if hasWin && Bonuses.AnyNamed(active0, Bonuses.ComboBoost) then 2 else 0),
                     jackpotProgress := if hasWin && result.isJackpot then 0 else e.jackpotProgress)
      ensures Valid()
    {
      started := BeginSpin();
      if !started {
        return;
      }
      ChargeSound(old(State()));
      var result := slotMachine.Spin(us);
      ProcessSpinResult(result, rolls, ids, now);
    }
  }

  // ---------------------------------------------------------------------
  // Properties
  // ---------------------------------------------------------------------

  /** The initial ledger satisfies the invariant. */
  lemma InitialLedgerValid()
    ensures LedgerValid(InitialLedger())
  {
  }

  /**
   * The spin gate refuses exactly when the score does not cover the bet and no
   * free spin is left; a free spin is used before any score, and neither the
   * score nor the free-spin count goes negative.
   */
  lemma ChargeSound(l: Ledger)
    requires LedgerValid(l)
    ensures Charge(l).None? <==> l.score < l.betAmount && l.freeSpins == 0
    ensures Charge(l).Some? ==> LedgerValid(Charge(l).value) && Charge(l).value.totalSpins == l.totalSpins + 1
    ensures Charge(l).Some? && l.freeSpins > 0 ==>
              Charge(l).value.freeSpins == l.freeSpins - 1 && Charge(l).value.score == l.score
    ensures Charge(l).Some? && l.freeSpins == 0 ==>
              Charge(l).value.score == l.score - l.betAmount && Charge(l).value.freeSpins == 0
  {
  }

  /**
   * `defeatBoss` pays 1000 and 5 free spins and moves to the next world with a
   * fully healed boss, unless already on the last world.
   */
  lemma DefeatSound(l: Ledger)
    requires LedgerValid(l)
    ensures LedgerValid(Defeat(l))
    ensures Defeat(l).score == l.score + BossScore && Defeat(l).freeSpins == l.freeSpins + BossFreeSpins
    ensures Defeat(l).currentWorld == if l.currentWorld < |Worlds| - 1 then l.currentWorld + 1 else l.currentWorld
    ensures l.currentWorld < |Worlds| - 1 ==>
              Defeat(l).bossHealth[Defeat(l).currentWorld] == Worlds[Defeat(l).currentWorld].boss.maxHealth
  {
  }

  /**
   * `dealDamageToBoss` lowers the boss's health to `max(0, health - damage)`,
   * and the boss is defeated exactly when that reaches 0.
   */
  lemma DealDamageSound(l: Ledger, damage: int)
    requires LedgerValid(l) && 0 <= damage
    ensures LedgerValid(DealDamage(l, damage))
    ensures var h := Max(0, l.bossHealth[l.currentWorld] - damage);
            DealDamage(l, damage) == if h == 0 then Defeat(l.(bossHealth := l.bossHealth[l.currentWorld := 0]))
                                     else l.(bossHealth := l.bossHealth[l.currentWorld := h])
    ensures DealDamage(l, damage).score >= l.score
  {
    var h := Max(0, l.bossHealth[l.currentWorld] - damage);
    if h == 0 {
      DefeatSound(l.(bossHealth := l.bossHealth[l.currentWorld := 0]));
    }
  }

  /** On the last world a dead boss pays its reward again on every hit. */
  lemma LastBossRepays(l: Ledger, damage: int)
    requires Shaped(l) && l.currentWorld == |Worlds| - 1 && l.bossHealth[l.currentWorld] == 0 && 0 <= damage
    ensures DealDamage(l, damage).score == l.score + BossScore
    ensures DealDamage(l, damage).freeSpins == l.freeSpins + BossFreeSpins
    ensures DealDamage(l, damage).currentWorld == l.currentWorld
  {
  }

  /**
   * `bossAttack` does nothing when the boss is dead or the shield is up;
   * otherwise it takes the boss's attack from the player's health, stopping at 0.
   */
  lemma AttackSound(l: Ledger, shielded: bool)
    requires LedgerValid(l)
    ensures LedgerValid(Attack(l, shielded))
    ensures l.bossHealth[l.currentWorld] == 0 || shielded ==> Attack(l, shielded) == l
    ensures l.bossHealth[l.currentWorld] > 0 && !shielded ==>
              Attack(l, shielded) == l.(playerHealth := Max(0, l.playerHealth - Worlds[l.currentWorld].boss.attack))
    ensures Attack(l, shielded).playerHealth <= l.playerHealth
  {
  }

  /** Healing stops at the maximum, Multi-Spin adds 3 free spins, the others do nothing here. */
  lemma PowerUpEffectSound(l: Ledger, n: Bonuses.PowerUpName)
    requires LedgerValid(l)
    ensures LedgerValid(PowerUpEffect(l, n))
    ensures n == Bonuses.SteamHealing ==>
              PowerUpEffect(l, n).playerHealth == if l.playerHealth + HealAmount < l.maxHealth
                                                  then l.playerHealth + HealAmount else l.maxHealth
    ensures n == Bonuses.MultiSpin ==> PowerUpEffect(l, n).freeSpins == l.freeSpins + MultiSpinFreeSpins
    ensures n != Bonuses.SteamHealing && n != Bonuses.MultiSpin ==> PowerUpEffect(l, n) == l
  {
  }

  lemma {:induction false} PowerUpEffectsValid(l: Ledger, ns: seq<Bonuses.PowerUpName>)
    requires LedgerValid(l)
    ensures LedgerValid(PowerUpEffects(l, ns))
    ensures PowerUpEffects(l, ns).score == l.score && PowerUpEffects(l, ns).freeSpins >= l.freeSpins
  {
    if ns != [] {
      PowerUpEffectsValid(l, ns[..|ns| - 1]);
      PowerUpEffectSound(PowerUpEffects(l, ns[..|ns| - 1]), ns[|ns| - 1]);
    }
  }

  /**
   * A processed result changes score, wins and jackpot only when it has wins;
   * it adds 10 per point of damage, and a jackpot pays 5000 and 10 free spins.
   */
  lemma SettleSound(l: Ledger, hasWin: bool, finalDamage: int, isJackpot: bool)
    requires LedgerValid(l) && 0 <= finalDamage
    ensures LedgerValid(Settle(l, hasWin, finalDamage, isJackpot))
    ensures !hasWin ==> Settle(l, hasWin, finalDamage, isJackpot) == l
    ensures hasWin ==> Settle(l, hasWin, finalDamage, isJackpot).totalWins == l.totalWins + 1
    ensures hasWin ==>
              Settle(l, hasWin, finalDamage, isJackpot).score ==
              DealDamage(l, finalDamage).score + ScorePerDamage * finalDamage + (if isJackpot then JackpotScore else 0)
  {
    if hasWin {
      DealDamageSound(l.(totalWins := l.totalWins + 1), finalDamage);
    }
  }

  /** A whole processed result keeps the ledger invariant. */
  lemma RoundKeepsValid(l: Ledger, hasWin: bool, finalDamage: int, isJackpot: bool,
                        ns: seq<Bonuses.PowerUpName>, shielded: bool)
    requires LedgerValid(l) && 0 <= finalDamage
    ensures LedgerValid(Attack(PowerUpEffects(Settle(l, hasWin, finalDamage, isJackpot), ns), shielded))
  {
    SettleSound(l, hasWin, finalDamage, isJackpot);
    PowerUpEffectsValid(Settle(l, hasWin, finalDamage, isJackpot), ns);
    AttackSound(PowerUpEffects(Settle(l, hasWin, finalDamage, isJackpot), ns), shielded);
  }

  /** Double Damage doubles; the damage never shrinks for a non-negative base. */
  lemma BoostedDamageSound(active: seq<Bonuses.Bonus>, baseDamage: int)
    requires 0 <= baseDamage
    ensures BoostedDamage(active, baseDamage) == 2 * baseDamage <==>
              (exists b :: b in active && b.name == Bonuses.DoubleDamage) || baseDamage == 0
    ensures baseDamage <= BoostedDamage(active, baseDamage) <= 2 * baseDamage
  {
  }

  /** `adjustBet` keeps the bet in [1, 100] and moves it by `delta` when that stays in range. */
  lemma AdjustedBetSound(bet: int, delta: int)
    ensures MinBet <= AdjustedBet(bet, delta) <= MaxBet
    ensures MinBet <= bet + delta <= MaxBet ==> AdjustedBet(bet, delta) == bet + delta
    ensures bet + delta < MinBet ==> AdjustedBet(bet, delta) == MinBet
    ensures bet + delta > MaxBet ==> AdjustedBet(bet, delta) == MaxBet
  {
  }

  /** The bet field yields a bet in [1, 100], 10 for an empty, unparsable or zero value. */
  lemma BetFromFieldSound(parsed: Option<int>)
    ensures MinBet <= BetFromField(parsed) <= MaxBet
    ensures parsed.None? || parsed.value == 0 ==> BetFromField(parsed) == DefaultBet
    ensures parsed.Some? && MinBet <= parsed.value <= MaxBet ==> BetFromField(parsed) == parsed.value
  {
  }

  /** Add-funds raises the score exactly by a positive amount and otherwise leaves it. */
  lemma FundsAddedSound(score: int, parsed: Option<int>)
    ensures FundsAdded(score, parsed) >= score
    ensures FundsAdded(score, parsed) > score <==> parsed.Some? && parsed.value > 0
    ensures FundsAdded(score, parsed) > score ==> FundsAdded(score, parsed) == score + parsed.value
  {
  }
}
