/**
 * The power-up table of the 5x5 game (`BonusFeatureSystem`): a countdown
 * table of active bonuses keyed by id, kept in insertion order like a
 * JavaScript `Map`, and an append-only history.
 *
 * The id (`Date.now() + Math.random()`), the activation rolls and the clock
 * are parameters. Power-up names are an enumeration; `Title` gives the text.
 */
module Bonuses {
  import SlotEngine

  datatype PowerUpName = DoubleDamage | SteamHealing | MechanicalShield | MultiSpin | ComboBoost

  /** The display name the source compares against. */
  function Title(n: PowerUpName): string {
    match n
    case DoubleDamage => "Double Damage"
    case SteamHealing => "Steam Healing"
    case MechanicalShield => "Mechanical Shield"
    case MultiSpin => "Multi-Spin"
    case ComboBoost => "Combo Boost"
  }

  /** Number of spins a power-up stays in the table; 0 marks an instant effect. */
  function Duration(n: PowerUpName): nat {
    match n
    case DoubleDamage => 3
    case SteamHealing => 0
    case MechanicalShield => 2
    case MultiSpin => 0
    case ComboBoost => 5
  }

  datatype PowerUp = PowerUp(name: PowerUpName, effect: string, duration: nat, chance: real)

  /** `POWER_UPS`, in declaration order. */
  const PowerUps: seq<PowerUp> := [
    PowerUp(DoubleDamage, "Next attack deals 2x damage", 3, 0.05),
    PowerUp(SteamHealing, "Instantly restore 30 health points", 0, 0.05),
    PowerUp(MechanicalShield, "Block next 2 enemy attacks", 2, 0.05),
    PowerUp(MultiSpin, "Receive 3 free spins", 0, 0.05),
    PowerUp(ComboBoost, "Increase combo multiplier by 1", 5, 0.05)
  ]

  datatype Bonus = Bonus(id: real, name: PowerUpName, effect: string, duration: nat,
                         remainingTurns: int, activated: bool)

  /** A history record: a copy of the bonus as activated, with its time stamp. */
  datatype HistoryEntry = HistoryEntry(bonus: Bonus, activatedAt: int)

  function NewBonus(p: PowerUp, id: real): Bonus {
    Bonus(id, p.name, p.effect, p.duration, p.duration, true)
  }

  // ---------------------------------------------------------------------
  // The table as a value
  // ---------------------------------------------------------------------

  /** Map keys are unique. */
  predicate UniqueIds(bs: seq<Bonus>) {
    forall i, j :: 0 <= i < j < |bs| ==> bs[i].id != bs[j].id
  }

  /** A stored bonus has turns left, no more than its power-up's duration. */
  predicate Counting(b: Bonus) {
    0 < b.remainingTurns <= b.duration && b.duration == Duration(b.name)
  }

  /** What the table keeps true: unique keys, every entry still counting. */
  predicate WellFormed(bs: seq<Bonus>) {
    UniqueIds(bs) && forall b :: b in bs ==> Counting(b)
  }

  /** `Map.set`: replace the entry with the same key in place, or append. */
  function MapSet(bs: seq<Bonus>, b: Bonus): (r: seq<Bonus>)
    ensures b in r
    ensures forall c :: c in r ==> c == b || c in bs
  {
    if bs == [] then [b]
    else if bs[0].id == b.id then [b] + bs[1..]
    else [bs[0]] + MapSet(bs[1..], b)
  }

  /** `Map.delete`: drop the entry with key `id`. */
  function Delete(bs: seq<Bonus>, id: real): (r: seq<Bonus>)
    ensures forall c :: c in r ==> c in bs && c.id != id
  {
    if bs == [] then []
    else (if bs[0].id == id then [] else [bs[0]]) + Delete(bs[1..], id)
  }

  /** Deleting every id of `ids`, one after the other. */
  function DeleteAll(bs: seq<Bonus>, ids: seq<real>): seq<Bonus> {
    if ids == [] then bs else Delete(DeleteAll(bs, ids[..|ids| - 1]), ids[|ids| - 1])
  }

  /** Reference definition: the entries whose key is not in `ids`. */
  function Keep(bs: seq<Bonus>, ids: seq<real>): seq<Bonus> {
    if bs == [] then []
    else (if bs[0].id in ids then [] else [bs[0]]) + Keep(bs[1..], ids)
  }

  function Tick(b: Bonus): Bonus {
    b.(remainingTurns := b.remainingTurns - 1)
  }

  /** Every entry one turn shorter, keys and order unchanged. */
  function Decrement(bs: seq<Bonus>): (r: seq<Bonus>)
    ensures |r| == |bs|
    ensures forall k :: 0 <= k < |bs| ==> r[k] == Tick(bs[k])
  {
    seq(|bs|, k requires 0 <= k < |bs| => Tick(bs[k]))
  }

  /** Keys of the entries with no turn left, in table order. */
  function ExpiredIds(bs: seq<Bonus>): (ids: seq<real>) {
    if bs == [] then []
    else
      var b := bs[|bs| - 1];
      ExpiredIds(bs[..|bs| - 1]) + (if b.remainingTurns <= 0 then [b.id] else [])
  }

  /** The entries that still have turns left. */
  function Live(bs: seq<Bonus>): (r: seq<Bonus>)
    ensures forall b :: b in r ==> b in bs && b.remainingTurns > 0
  {
    if bs == [] then []
    else (if bs[0].remainingTurns > 0 then [bs[0]] else []) + Live(bs[1..])
  }

  /** One `updateBonusDurations` on the table. */
  function Update(bs: seq<Bonus>): seq<Bonus> {
    Live(Decrement(bs))
  }

  /** `k` updates in a row. */
  function Updates(bs: seq<Bonus>, k: nat): seq<Bonus>
    decreases k
  {
    if k == 0 then bs else Updates(Update(bs), k - 1)
  }

  /** Some entry carries that name (`isBonusActive`). */
  function AnyNamed(bs: seq<Bonus>, n: PowerUpName): (r: bool)
    ensures r <==> exists b :: b in bs && b.name == n
  {
    if bs == [] then false
    else bs[0].name == n || AnyNamed(bs[1..], n)
  }

  /** Table and history after `activatePowerUp(p)`. */
  datatype Table = Table(active: seq<Bonus>, history: seq<HistoryEntry>)

  function Activate(t: Table, p: PowerUp, id: real, now: int): Table {
    var b := NewBonus(p, id);
    Table(if p.duration > 0 then MapSet(t.active, b) else t.active, t.history + [HistoryEntry(b, now)])
  }

  /** Whether the roll for power-up `i` fires (`Math.random() < chance`). */
  predicate Fires(rolls: seq<real>, i: nat)
    requires i < |PowerUps| && i < |rolls|
  {
    rolls[i] < PowerUps[i].chance
  }

  /**
   * `checkPowerUpActivation` over the first `n` power-ups: the table after
   * activating each one whose roll fires, and the list of activated bonuses.
   */
  function CheckFirst(t: Table, rolls: seq<real>, ids: seq<real>, now: int, n: nat): (Table, seq<Bonus>)
    requires n <= |PowerUps| && n <= |rolls| && n <= |ids|
  {
    if n == 0 then (t, [])
    else
      var prev := CheckFirst(t, rolls, ids, now, n - 1);
      if Fires(rolls, n - 1) then
        (Activate(prev.0, PowerUps[n - 1], ids[n - 1], now), prev.1 + [NewBonus(PowerUps[n - 1], ids[n - 1])])
      else prev
  }

  // ---------------------------------------------------------------------
  // The two passes of `updateBonusDurations`
  // ---------------------------------------------------------------------

  /** First pass: decrement every entry in place, collecting the keys that reached 0. */
  method CountDown(bs: seq<Bonus>) returns (ticked: seq<Bonus>, expired: seq<real>)
    ensures ticked == Decrement(bs)
    ensures expired == ExpiredIds(ticked)
  {
    ticked := bs;
    expired := [];
    var i := 0;
    while i < |ticked|
      invariant 0 <= i <= |ticked| == |bs|
      invariant forall k :: 0 <= k < i ==> ticked[k] == Tick(bs[k])
      invariant forall k :: i <= k < |ticked| ==> ticked[k] == bs[k]
      invariant expired == ExpiredIds(ticked[..i])
    {
      ghost var prefix := ticked[..i];
      ticked := ticked[i := Tick(ticked[i])];
      assert ticked[..i + 1] == prefix + [ticked[i]];
      assert (prefix + [ticked[i]])[..i] == prefix;
      if ticked[i].remainingTurns <= 0 {
        expired := expired + [ticked[i].id];
      }
      i := i + 1;
    }
    assert ticked[..i] == ticked;
  }

  /** Second pass: `Map.delete` for each collected key, in order. */
  method DeleteEach(bs: seq<Bonus>, ids: seq<real>) returns (r: seq<Bonus>)
    ensures r == DeleteAll(bs, ids)
  {
    r := bs;
    var j := 0;
    while j < |ids|
      invariant 0 <= j <= |ids|
      invariant r == DeleteAll(bs, ids[..j])
    {
      assert ids[..j + 1][..j] == ids[..j];
      r := Delete(r, ids[j]);
      j := j + 1;
    }
    assert ids[..j] == ids;
  }

  // ---------------------------------------------------------------------
  // The class
  // ---------------------------------------------------------------------

  class BonusFeatureSystem {
    const slotMachine: SlotEngine.SlotMachine
    var activeBonuses: seq<Bonus>
    var bonusHistory: seq<HistoryEntry>

    ghost predicate Valid()
      reads this
    {
      WellFormed(activeBonuses)
    }

    constructor(machine: SlotEngine.SlotMachine)
      ensures slotMachine == machine
      ensures activeBonuses == [] && bonusHistory == []
      ensures Valid()
    {
      slotMachine := machine;
      activeBonuses := [];
      bonusHistory := [];
    }

    /** `activatePowerUp`: store only lasting power-ups, always log. */
    method ActivatePowerUp(p: PowerUp, id: real, now: int) returns (bonus: Bonus)
      modifies this`activeBonuses, this`bonusHistory
      ensures bonus == NewBonus(p, id)
      ensures Table(activeBonuses, bonusHistory) == Activate(Table(old(activeBonuses), old(bonusHistory)), p, id, now)
    {
      bonus := Bonus(id, p.name, p.effect, p.duration, p.duration, true);
      if p.duration > 0 {
        activeBonuses := MapSet(activeBonuses, bonus);
      }
      bonusHistory := bonusHistory + [HistoryEntry(bonus, now)];
    }

    /**
     * `checkPowerUpActivation`: roll for each power-up in declaration order.
     * The clock is read once per call, so every activation of one call is
     * stamped with the same `now` in the history.
     */
    method CheckPowerUpActivation(rolls: seq<real>, ids: seq<real>, now: int) returns (activated: seq<Bonus>)
      requires |rolls| == |PowerUps| && |ids| == |PowerUps|
      modifies this`activeBonuses, this`bonusHistory
      ensures (Table(activeBonuses, bonusHistory), activated) ==
              CheckFirst(Table(old(activeBonuses), old(bonusHistory)), rolls, ids, now, |PowerUps|)
    {
      activated := [];
      var i := 0;
      while i < |PowerUps|
        invariant 0 <= i <= |PowerUps|
        invariant (Table(activeBonuses, bonusHistory), activated) ==
                  CheckFirst(Table(old(activeBonuses), old(bonusHistory)), rolls, ids, now, i)
      {
        if rolls[i] < PowerUps[i].chance {
          var b := ActivatePowerUp(PowerUps[i], ids[i], now);
          activated := activated + [b];
        }
        i := i + 1;
      }
    }

    /** `updateBonusDurations`: count every entry down, then delete the expired ones. */
    method UpdateBonusDurations() returns (expired: seq<real>)
      requires UniqueIds(activeBonuses)
      modifies this`activeBonuses
      ensures expired == ExpiredIds(Decrement(old(activeBonuses)))
      ensures activeBonuses == Update(old(activeBonuses))
    {
      var ticked;
      ticked, expired := CountDown(activeBonuses);
      DecrementKeepsIds(activeBonuses);
      ExpiredAreDeleted(ticked);
      activeBonuses := DeleteEach(ticked, expired);
    }

    /** `getActiveBonuses`: the stored bonuses in insertion order. */
    function GetActiveBonuses(): (r: seq<Bonus>)
      reads this
      requires Valid()
      ensures forall b :: b in r ==> 0 < b.remainingTurns <= b.duration
      ensures forall b :: b in r ==> b.name != SteamHealing && b.name != MultiSpin
    {
      activeBonuses
    }

    /** `isBonusActive`. */
    function IsBonusActive(n: PowerUpName): (r: bool)
      reads this
      ensures r <==> exists b :: b in activeBonuses && b.name == n
    {
      AnyNamed(activeBonuses, n)
    }

    /** `applyBonusEffects`: double on Double Damage; Combo Boost bumps the engine multiplier by 1. */
    method ApplyBonusEffects(baseDamage: int) returns (d: int)
      modifies slotMachine`multiplierHalves
      ensures d == if IsBonusActive(DoubleDamage) then 2 * baseDamage else baseDamage
      ensures slotMachine.multiplierHalves ==
              old(slotMachine.multiplierHalves) + if IsBonusActive(ComboBoost) then 2 else 0
    {
      d := baseDamage;
      if IsBonusActive(DoubleDamage) {
        d := d * 2;
      }
      if IsBonusActive(ComboBoost) {
        slotMachine.multiplierHalves := slotMachine.multiplierHalves + 2;
      }
    }
  }

  // ---------------------------------------------------------------------
  // Properties
  // ---------------------------------------------------------------------

  /** The table's durations are the ones `Duration` gives; only two are instant. */
  lemma PowerUpsTable()
    ensures forall p :: p in PowerUps ==> p.duration == Duration(p.name) && p.chance == 0.05
    ensures forall p :: p in PowerUps ==> (p.duration == 0 <==> p.name == SteamHealing || p.name == MultiSpin)
  {
  }

  /** Keys are unique in `[x] + bs` iff they are unique in `bs` and `x`'s key is new. */
  lemma UniqueCons(x: Bonus, bs: seq<Bonus>)
    ensures UniqueIds([x] + bs) <==> UniqueIds(bs) && forall c :: c in bs ==> c.id != x.id
  {
    var r := [x] + bs;
    if UniqueIds(r) {
      forall i, j | 0 <= i < j < |bs| ensures bs[i].id != bs[j].id {
        assert r[i + 1] == bs[i] && r[j + 1] == bs[j];
      }
      forall c | c in bs ensures c.id != x.id {
        var k :| 0 <= k < |bs| && bs[k] == c;
        assert r[0] == x && r[k + 1] == c;
      }
    }
    if UniqueIds(bs) && forall c :: c in bs ==> c.id != x.id {
      forall i, j | 0 <= i < j < |r| ensures r[i].id != r[j].id {
        assert r[j] == bs[j - 1];
        if i > 0 {
          assert r[i] == bs[i - 1];
        }
      }
    }
  }

  /** `Map.set` keeps keys unique and the other entries untouched. */
  lemma {:induction false} MapSetSound(bs: seq<Bonus>, b: Bonus)
    requires UniqueIds(bs)
    ensures UniqueIds(MapSet(bs, b))
    ensures forall c :: c in MapSet(bs, b) <==> c == b || (c in bs && c.id != b.id)
  {
    if bs != [] {
      var tail := bs[1..];
      assert bs == [bs[0]] + tail;
      UniqueCons(bs[0], tail);
      if bs[0].id != b.id {
        MapSetSound(tail, b);
        UniqueCons(bs[0], MapSet(tail, b));
      } else {
        UniqueCons(b, tail);
      }
    }
  }

  /** Activation keeps the table well formed; instant power-ups never enter it. */
  lemma ActivateKeepsWellFormed(t: Table, p: PowerUp, id: real, now: int)
    requires WellFormed(t.active) && p in PowerUps
    ensures WellFormed(Activate(t, p, id, now).active)
    ensures Activate(t, p, id, now).history == t.history + [HistoryEntry(NewBonus(p, id), now)]
    ensures p.duration > 0 ==> NewBonus(p, id) in Activate(t, p, id, now).active
  {
    PowerUpsTable();
    if p.duration > 0 {
      MapSetSound(t.active, NewBonus(p, id));
    }
  }

  /**
   * A whole `checkPowerUpActivation`: the activated list holds exactly the
   * power-ups whose roll fired, every one of them is logged, and the table
   * stays well formed.
   */
  lemma {:induction false} CheckFirstSound(t: Table, rolls: seq<real>, ids: seq<real>, now: int, n: nat)
    requires n <= |PowerUps| && n <= |rolls| && n <= |ids|
    requires WellFormed(t.active)
    ensures WellFormed(CheckFirst(t, rolls, ids, now, n).0.active)
    ensures CheckFirst(t, rolls, ids, now, n).0.history ==
            t.history + seq(|CheckFirst(t, rolls, ids, now, n).1|,
                            k requires 0 <= k < |CheckFirst(t, rolls, ids, now, n).1| =>
                              HistoryEntry(CheckFirst(t, rolls, ids, now, n).1[k], now))
    ensures forall b :: b in CheckFirst(t, rolls, ids, now, n).1 <==>
              exists i :: 0 <= i < n && Fires(rolls, i) && b == NewBonus(PowerUps[i], ids[i])
  {
    if n > 0 {
      CheckFirstSound(t, rolls, ids, now, n - 1);
      var prev := CheckFirst(t, rolls, ids, now, n - 1);
      if Fires(rolls, n - 1) {
        ActivateKeepsWellFormed(prev.0, PowerUps[n - 1], ids[n - 1], now);
        var cur := CheckFirst(t, rolls, ids, now, n);
        assert cur.1 == prev.1 + [NewBonus(PowerUps[n - 1], ids[n - 1])];
        forall b | b in cur.1
          ensures exists i :: 0 <= i < n && Fires(rolls, i) && b == NewBonus(PowerUps[i], ids[i])
        {
          if b !in prev.1 {
            assert b == NewBonus(PowerUps[n - 1], ids[n - 1]);
          }
        }
        forall b | exists i :: 0 <= i < n && Fires(rolls, i) && b == NewBonus(PowerUps[i], ids[i])
          ensures b in cur.1
        {
          var i :| 0 <= i < n && Fires(rolls, i) && b == NewBonus(PowerUps[i], ids[i]);
          if i < n - 1 {
            assert b in prev.1;
          }
        }
      } else {
        forall b | exists i :: 0 <= i < n && Fires(rolls, i) && b == NewBonus(PowerUps[i], ids[i])
          ensures b in prev.1
        {
          var i :| 0 <= i < n && Fires(rolls, i) && b == NewBonus(PowerUps[i], ids[i]);
          assert i < n - 1;
        }
      }
    }
  }

  /** With no roll below 0.05 nothing is activated and nothing is logged. */
  lemma {:induction false} NoRollNoChange(t: Table, rolls: seq<real>, ids: seq<real>, now: int, n: nat)
    requires n <= |PowerUps| && n <= |rolls| && n <= |ids|
    requires forall i :: 0 <= i < n ==> rolls[i] >= 0.05
    ensures CheckFirst(t, rolls, ids, now, n) == (t, [])
  {
    if n > 0 {
      NoRollNoChange(t, rolls, ids, now, n - 1);
    }
  }

  /** Decrementing keeps every key in its place. */
  lemma DecrementKeepsIds(bs: seq<Bonus>)
    ensures forall k :: 0 <= k < |bs| ==> Decrement(bs)[k].id == bs[k].id
    ensures UniqueIds(bs) ==> UniqueIds(Decrement(bs))
  {
  }

  /** `ExpiredIds` lists the key of every entry with no turn left, and only those. */
  lemma {:induction false} ExpiredIdsMembers(bs: seq<Bonus>)
    ensures forall id :: id in ExpiredIds(bs) <==>
              exists k :: 0 <= k < |bs| && bs[k].remainingTurns <= 0 && bs[k].id == id
  {
    if bs != [] {
      var init := bs[..|bs| - 1];
      ExpiredIdsMembers(init);
      forall id | id in ExpiredIds(bs)
        ensures exists k :: 0 <= k < |bs| && bs[k].remainingTurns <= 0 && bs[k].id == id
      {
        if id in ExpiredIds(init) {
          var k :| 0 <= k < |init| && init[k].remainingTurns <= 0 && init[k].id == id;
          assert bs[k] == init[k];
        }
      }
      forall id | exists k :: 0 <= k < |bs| && bs[k].remainingTurns <= 0 && bs[k].id == id
        ensures id in ExpiredIds(bs)
      {
        var k :| 0 <= k < |bs| && bs[k].remainingTurns <= 0 && bs[k].id == id;
        if k < |bs| - 1 {
          assert init[k] == bs[k];
        }
      }
    }
  }

  /** Deleting a key from the kept entries is keeping without that key too. */
  lemma {:induction false} DeleteKeep(bs: seq<Bonus>, ids: seq<real>, id: real)
    ensures Delete(Keep(bs, ids), id) == Keep(bs, ids + [id])
  {
    if bs != [] {
      var tail := bs[1..];
      DeleteKeep(tail, ids, id);
      assert bs[0].id in ids + [id] <==> bs[0].id in ids || bs[0].id == id;
      var rest := Keep(tail, ids);
      if bs[0].id in ids {
        assert Keep(bs, ids) == rest;
      } else {
        var kept := [bs[0]] + rest;
        assert Keep(bs, ids) == kept;
        assert kept[0] == bs[0] && kept[1..] == rest;
        assert Delete(kept, id) == (if bs[0].id == id then [] else [bs[0]]) + Delete(rest, id);
      }
    }
  }

  lemma {:induction false} KeepNothing(bs: seq<Bonus>)
    ensures Keep(bs, []) == bs
  {
    if bs != [] {
      KeepNothing(bs[1..]);
      assert bs == [bs[0]] + bs[1..];
    }
  }

  /** Deleting keys one at a time keeps exactly the entries with other keys. */
  lemma {:induction false} DeleteAllIsKeep(bs: seq<Bonus>, ids: seq<real>)
    ensures DeleteAll(bs, ids) == Keep(bs, ids)
  {
    if ids == [] {
      KeepNothing(bs);
    } else {
      var init := ids[..|ids| - 1];
      DeleteAllIsKeep(bs, init);
      DeleteKeep(bs, init, ids[|ids| - 1]);
      assert init + [ids[|ids| - 1]] == ids;
    }
  }

  /** When the keys to drop are exactly the keys of the finished entries, keeping is `Live`. */
  lemma {:induction false} KeepFinished(bs: seq<Bonus>, ids: seq<real>)
    requires forall k :: 0 <= k < |bs| ==> (bs[k].id in ids <==> bs[k].remainingTurns <= 0)
    ensures Keep(bs, ids) == Live(bs)
  {
    if bs != [] {
      assert bs[0].id in ids <==> bs[0].remainingTurns <= 0;
      forall k | 0 <= k < |bs[1..]|
        ensures bs[1..][k].id in ids <==> bs[1..][k].remainingTurns <= 0
      {
        assert bs[1..][k] == bs[k + 1];
      }
      KeepFinished(bs[1..], ids);
    }
  }

  /** With unique keys, deleting the expired keys leaves exactly the live entries. */
  lemma ExpiredAreDeleted(bs: seq<Bonus>)
    requires UniqueIds(bs)
    ensures DeleteAll(bs, ExpiredIds(bs)) == Live(bs)
  {
    ExpiredIdsMembers(bs);
    forall k | 0 <= k < |bs|
      ensures bs[k].id in ExpiredIds(bs) <==> bs[k].remainingTurns <= 0
    {
      if bs[k].id in ExpiredIds(bs) {
        var m :| 0 <= m < |bs| && bs[m].remainingTurns <= 0 && bs[m].id == bs[k].id;
        assert m == k;
      }
    }
    DeleteAllIsKeep(bs, ExpiredIds(bs));
    KeepFinished(bs, ExpiredIds(bs));
  }

  /**
   * `updateBonusDurations` on a well-formed table: an entry is removed and its
   * key reported exactly when it had one turn left; the rest stay, one turn
   * shorter, and the table stays well formed.
   */
  lemma UpdateSound(bs: seq<Bonus>)
    requires WellFormed(bs)
    ensures WellFormed(Update(bs))
    ensures forall k :: 0 <= k < |bs| ==>
              (bs[k].id in ExpiredIds(Decrement(bs)) <==> bs[k].remainingTurns == 1)
    ensures forall k :: 0 <= k < |bs| ==>
              (Tick(bs[k]) in Update(bs) <==> bs[k].remainingTurns > 1)
    ensures forall b :: b in Update(bs) ==> exists k :: 0 <= k < |bs| && b == Tick(bs[k])
  {
    var d := Decrement(bs);
    DecrementKeepsIds(bs);
    ExpiredIdsMembers(d);
    LiveSub(d);
    forall k | 0 <= k < |bs|
      ensures bs[k].id in ExpiredIds(d) <==> bs[k].remainingTurns == 1
    {
      assert bs[k] in bs;
      if bs[k].id in ExpiredIds(d) {
        var m :| 0 <= m < |d| && d[m].remainingTurns <= 0 && d[m].id == bs[k].id;
        assert m == k;
      } else {
        assert d[k].id == bs[k].id;
      }
    }
    forall k | 0 <= k < |bs|
      ensures Tick(bs[k]) in Update(bs) <==> bs[k].remainingTurns > 1
    {
      assert d[k] == Tick(bs[k]) && d[k] in d;
    }
    forall b | b in Update(bs) ensures Counting(b) && exists k :: 0 <= k < |bs| && b == Tick(bs[k]) {
      var m :| 0 <= m < |d| && d[m] == b;
      assert bs[m] in bs;
    }
  }

  /** `Live` keeps exactly the entries with turns left, so keys stay unique. */
  lemma {:induction false} LiveSub(bs: seq<Bonus>)
    ensures forall b :: b in Live(bs) <==> b in bs && b.remainingTurns > 0
    ensures UniqueIds(bs) ==> UniqueIds(Live(bs))
  {
    if bs != [] {
      var tail := bs[1..];
      assert bs == [bs[0]] + tail;
      LiveSub(tail);
      UniqueCons(bs[0], tail);
      if bs[0].remainingTurns > 0 {
        UniqueCons(bs[0], Live(tail));
      }
    }
  }

  /**
   * A bonus with `n` turns left is in the table for the next `n - 1` updates
   * and gone after the `n`-th: Double Damage lasts 3 spins, Mechanical Shield
   * 2, Combo Boost 5.
   */
  lemma {:induction false} Lifetime(b: Bonus, k: nat)
    requires b.remainingTurns > 0
    decreases k
    ensures Updates([b], k) ==
            if k < b.remainingTurns then [b.(remainingTurns := b.remainingTurns - k)] else []
  {
    if k > 0 {
      var t := Tick(b);
      assert Decrement([b]) == [t];
      assert [t][1..] == [];
      assert Live([t]) == (if t.remainingTurns > 0 then [t] else []) + Live([]);
      assert Update([b]) == Live([t]);
      if b.remainingTurns > 1 {
        assert Update([b]) == [t];
        Lifetime(t, k - 1);
      } else {
        assert Update([b]) == [];
        UpdatesOfEmpty(k - 1);
      }
    }
  }

  lemma {:induction false} UpdatesOfEmpty(k: nat)
    ensures Updates([], k) == []
  {
    if k > 0 {
      assert Update([]) == [];
      UpdatesOfEmpty(k - 1);
    }
  }

  /** Combo Boost's bump is lost at the next combo update, which ignores the old multiplier. */
  lemma ComboBoostOverwritten(comboCount: int, boosted: int, plain: int, hasWin: bool)
    ensures SlotEngine.ComboStep(comboCount, boosted, hasWin) == SlotEngine.ComboStep(comboCount, plain, hasWin)
  {
  }

  /** Only lasting power-ups can be active. */
  lemma InstantNeverActive(bs: seq<Bonus>)
    requires WellFormed(bs)
    ensures !AnyNamed(bs, SteamHealing) && !AnyNamed(bs, MultiSpin)
  {
  }
}
