/**
 * The upgrade catalog (`UPGRADE_TYPES`): for each upgrade type its base
 * price, price multiplier and level effect, and the mining duration and
 * reward those effects produce.
 */
module Pricing {
  import opened Results
  import opened Money

  /** The three catalog entries, in catalog order. */
  datatype UpgradeKind = Speed | Income | Multiplier

  /** Base mining time: eight hours, in seconds. */
  const BaseMiningTime: nat := 28800

  /** Share of the balance paid out per mining cycle before upgrades. */
  const RewardRate: real := 0.35

  /** The `type` tag of each catalog entry. */
  function Tag(k: UpgradeKind): string
  {
    match k
    case Speed => "speed"
    case Income => "income"
    case Multiplier => "multiplier"
  }

  /** Looks a requested type name up in the catalog; unknown names give None. */
  function ParseKind(s: string): (r: Option<UpgradeKind>)
    ensures r.Some? <==> s in {"speed", "income", "multiplier"}
    ensures r.Some? ==> Tag(r.value) == s
  {
    if s == "speed" then Some(Speed)
    else if s == "income" then Some(Income)
    else if s == "multiplier" then Some(Multiplier)
    else None
  }

  /** Every catalog entry is found under its own tag. */
  lemma ParseTag(k: UpgradeKind)
    ensures ParseKind(Tag(k)) == Some(k)
  {
  }

  function BasePrice(k: UpgradeKind): nat
  {
    match k
    case Speed => 50
    case Income => 100
    case Multiplier => 500
  }

  function PriceMult(k: UpgradeKind): real
  {
    match k
    case Speed => 1.8
    case Income => 2.2
    case Multiplier => 2.5
  }

  /** Price of buying the next level when the current level is `lvl`. */
  function Price(k: UpgradeKind, lvl: nat): (p: nat)
    ensures p >= BasePrice(k)
  {
    PowAtLeastOne(PriceMult(k), lvl);
    Trunc(BasePrice(k) as real * Pow(PriceMult(k), lvl))
  }

  /** The price of the first level is the base price itself. */
  lemma FirstPrice(k: UpgradeKind)
    ensures Price(k, 0) == BasePrice(k)
  {
  }

  /** One more level always costs strictly more. */
  lemma {:induction false} PriceStep(k: UpgradeKind, lvl: nat)
    ensures Price(k, lvl + 1) > Price(k, lvl)
  {
    var p := Pow(PriceMult(k), lvl);
    PowAtLeastOne(PriceMult(k), lvl);
    var b := BasePrice(k) as real;
    assert b * Pow(PriceMult(k), lvl + 1) == b * p + b * (PriceMult(k) - 1.0) * p;
    assert b * (PriceMult(k) - 1.0) * p >= 1.0 by {
      match k
      case Speed =>
      case Income =>
      case Multiplier =>
    }
    FloorStep(b * p, b * Pow(PriceMult(k), lvl + 1));
  }

  /** Prices rise strictly with the level. */
  lemma {:induction false} PriceIncreasing(k: UpgradeKind, lo: nat, hi: nat)
    requires lo < hi
    ensures Price(k, lo) < Price(k, hi)
  {
    PriceStep(k, hi - 1);
    if lo < hi - 1 {
      PriceIncreasing(k, lo, hi - 1);
    }
  }

  /** Speed effect: the fraction of the base mining time still waited. */
  function SpeedEffect(lvl: nat): (f: real)
    ensures 0.3 <= f <= 1.0
  {
    if 1.0 - 0.05 * lvl as real > 0.3 then 1.0 - 0.05 * lvl as real else 0.3
  }

  /** Income effect: a reward factor growing 8% per level. */
  function IncomeEffect(lvl: nat): (f: real)
    ensures f >= 1.0
  {
    1.0 + 0.08 * lvl as real
  }

  /** Multiplier effect: a reward factor growing 20% per level. */
  function MultiplierEffect(lvl: nat): (f: real)
    ensures f >= 1.0
  {
    1.0 + 0.2 * lvl as real
  }

  /** The effect of any type at level 0 is the identity factor. */
  lemma EffectsAtZero()
    ensures SpeedEffect(0) == 1.0 && IncomeEffect(0) == 1.0 && MultiplierEffect(0) == 1.0
  {
  }

  /** Lock duration in seconds for a given speed level; level 0 skips the effect. */
  function MiningDuration(speedLvl: nat): (d: nat)
    ensures 8640 <= d <= BaseMiningTime
    ensures speedLvl == 0 ==> d == BaseMiningTime
    ensures speedLvl <= 14 ==> d == BaseMiningTime - 1440 * speedLvl
    ensures speedLvl >= 14 ==> d == 8640
  {
    if speedLvl > 0 then Trunc(BaseMiningTime as real * SpeedEffect(speedLvl))
    else BaseMiningTime
  }

  /** A higher speed level never lengthens the lock. */
  lemma DurationNonIncreasing(lo: nat, hi: nat)
    requires lo <= hi
    ensures MiningDuration(hi) <= MiningDuration(lo)
  {
  }

  /** The unrounded reward: the rate times the balance, then the income and multiplier effects. */
  function RawReward(balance: Amount, incomeLvl: nat, multLvl: nat): real
  {
    var base := balance * RewardRate;
    var withIncome := if incomeLvl > 0 then base * IncomeEffect(incomeLvl) else base;
    if multLvl > 0 then withIncome * MultiplierEffect(multLvl) else withIncome
  }

  /** The reward stored as the pending claim when a lock is first seen expired. */
  function MiningReward(balance: Amount, incomeLvl: nat, multLvl: nat): (r: Amount)
    requires balance >= 0.0
    ensures r >= 0.0
    ensures -0.005 <= r - balance * RewardRate * IncomeEffect(incomeLvl) * MultiplierEffect(multLvl) <= 0.005
  {
    RawRewardFormula(balance, incomeLvl, multLvl);
    Round2(RawReward(balance, incomeLvl, multLvl))
  }

  /** Skipping a level-0 effect agrees with applying the formula unconditionally. */
  lemma {:induction false} RawRewardFormula(balance: Amount, incomeLvl: nat, multLvl: nat)
    requires balance >= 0.0
    ensures RawReward(balance, incomeLvl, multLvl)
         == balance * RewardRate * IncomeEffect(incomeLvl) * MultiplierEffect(multLvl)
    ensures RawReward(balance, incomeLvl, multLvl) >= balance * RewardRate
  {
    var base := balance * RewardRate;
    var i := IncomeEffect(incomeLvl);
    var m := MultiplierEffect(multLvl);
    assert base >= 0.0;
    assert base * i >= base by { assert base * (i - 1.0) >= 0.0; }
    assert base * i * m >= base * i by { assert base * i * (m - 1.0) >= 0.0; }
  }

  /** With no upgrades the reward is exactly 35% of the balance, rounded to cents. */
  lemma RewardWithoutUpgrades(balance: Amount)
    requires balance >= 0.0
    ensures MiningReward(balance, 0, 0) == Round2(balance * 0.35)
  {
  }

  /** Higher income or multiplier levels never lower the unrounded reward. */
  lemma RawRewardMonotone(balance: Amount, i1: nat, m1: nat, i2: nat, m2: nat)
    requires balance >= 0.0 && i1 <= i2 && m1 <= m2
    ensures RawReward(balance, i1, m1) <= RawReward(balance, i2, m2)
  {
    RawRewardFormula(balance, i1, m1);
    RawRewardFormula(balance, i2, m2);
    var base := balance * RewardRate;
    var a1, a2 := IncomeEffect(i1), IncomeEffect(i2);
    var b1, b2 := MultiplierEffect(m1), MultiplierEffect(m2);
    var x1, x2 := base * a1, base * a2;
    ScaleMono(a1, a2, base);
    ScaleMono(b1, b2, x1);
    ScaleMono(x1, x2, b2);
    calc {
      RawReward(balance, i1, m1);
    ==
      x1 * b1;
    <=
      x1 * b2;
    <=
      x2 * b2;
    ==
      RawReward(balance, i2, m2);
    }
  }

  /** Scaling by a non-negative factor keeps the order. */
  lemma ScaleMono(x: real, y: real, c: real)
    requires x <= y && c >= 0.0
    ensures c * x <= c * y && x * c <= y * c
  {
    assert c * (y - x) >= 0.0;
  }
}
